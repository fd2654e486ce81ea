/** The socket server's per-connection authorisation and its cookie helpers
    (src/services/ServerService.ts). The middleware keeps two caches keyed
    by socket id, the token and the authorised user, and asks the
    authorisation service only while no user is cached. */
module ServerAuth {
  import opened Common

  // ---------------------------------------------------------------------------
  // setJWTToken
  // ---------------------------------------------------------------------------

  /** The token `setJWTToken` stores for an authorization header: the second
      space-separated word when `Bearer` occurs anywhere in it (nothing,
      i.e. `undefined`, when there is no second word), the header verbatim
      otherwise. */
  function JwtToken(header: string): (r: Option<string>)
    ensures !Contains(header, "Bearer") ==> r == Some(header)
    ensures r.Some? && Contains(header, "Bearer") ==> ' ' !in r.value
  {
    if Contains(header, "Bearer") then
      var words := Split(header, ' ');
      if |words| > 1 then Some(words[1]) else None
    else Some(header)
  }

  /** The usual `Bearer <token>` header yields the token. */
  lemma BearerStripped(token: string)
    requires ' ' !in token
    ensures JwtToken("Bearer " + token) == Some(token)
  {
    var h := "Bearer " + token;
    assert OccursAt(h, "Bearer", 0) by { assert h[0..6] == "Bearer"; }
    assert IndexOf(h, "Bearer", 0).Some?;
    assert h == "Bearer" + [' '] + token;
    SplitCons("Bearer", ' ', token);
    SplitSingle(token, ' ');
  }

  /** Wherever `Bearer` occurs, the stored token is the second
      space-separated word of the header, whatever follows it. */
  lemma SecondWordStored(first: string, token: string, rest: string)
    requires ' ' !in first && ' ' !in token
    requires rest == "" || rest[0] == ' '
    requires Contains(first + " " + token + rest, "Bearer")
    ensures JwtToken(first + " " + token + rest) == Some(token)
  {
    var h := first + " " + token + rest;
    assert h == first + [' '] + (token + rest);
    SplitCons(first, ' ', token + rest);
    if rest == "" {
      assert token + rest == token;
      SplitSingle(token, ' ');
    } else {
      assert token + rest == token + [' '] + rest[1..];
      SplitCons(token, ' ', rest[1..]);
    }
  }

  /** A header with `Bearer` but no space has no second word: the stored
      token is `undefined`. */
  lemma NoSecondWordStoresNothing(header: string)
    requires ' ' !in header && Contains(header, "Bearer")
    ensures JwtToken(header) == None
  {
    SplitSingle(header, ' ');
  }

  // ---------------------------------------------------------------------------
  // The authorisation middleware
  // ---------------------------------------------------------------------------

  /** An authorised user object (always truthy). */
  datatype User = User(id: string)

  /** What `AuthService.authorize(token, UserClass)` does for this request:
      it resolves with a user, resolves with nothing, or throws. */
  datatype AuthAnswer = Granted(user: User) | Nothing | Throws(error: Error)

  /** The two caches: the stored token (possibly `undefined`) and the
      stored authorisation result (possibly empty) per socket id. */
  datatype Caches = Caches(tokens: map<string, Option<string>>, users: map<string, Option<User>>)

  /** `_self.tokens[socket.id]` is truthy. */
  predicate HasToken(c: Caches, socket: string) {
    socket in c.tokens && Truthy(c.tokens[socket])
  }

  /** `_self.users[socket.id]` is truthy. */
  predicate HasUser(c: Caches, socket: string) {
    socket in c.users && c.users[socket].Some?
  }

  /** The middleware's answer: a status written to the response, or the
      hand-off to the CORS middleware and `next`. */
  datatype Reply = Status(code: int, message: string) | Next

  /** One attempt's effect; `sent` is the token handed to the authorisation
      service when it is asked. */
  datatype Step = Step(caches: Caches, reply: Reply, authorizeCalled: bool, sent: Option<string>, disconnected: bool)

  /** The middleware for one connection attempt: no header is a 400; the
      token is stored only when none is stored yet; authorisation runs only
      while no user is cached, and a thrown error is logged and swallowed;
      with still no user the socket is disconnected with a 403; otherwise
      the request goes on. `answer` is what the authorisation service would
      do if asked. */
  function Middleware(c: Caches, socket: string, header: Option<string>, answer: AuthAnswer): (s: Step)
    ensures !Truthy(header) ==> s == Step(c, Status(400, "No token provided"), false, None, false)
    ensures Truthy(header) ==>
              && s.caches.tokens == (if HasToken(c, socket) then c.tokens else c.tokens[socket := JwtToken(header.value)])
              && (s.authorizeCalled <==> !HasUser(c, socket))
    ensures forall other :: other != socket ==>
              && (other in s.caches.tokens <==> other in c.tokens)
              && (other in c.tokens ==> s.caches.tokens[other] == c.tokens[other])
              && (other in s.caches.users <==> other in c.users)
              && (other in c.users ==> s.caches.users[other] == c.users[other])
    ensures s.reply == Next <==> Truthy(header) && HasUser(s.caches, socket)
    ensures s.reply != Next && Truthy(header) ==> s.reply == Status(403, "Token unauthorized") && s.disconnected
    ensures s.disconnected ==> s.reply == Status(403, "Token unauthorized")
    ensures HasUser(c, socket) ==> s.caches.users == c.users
    ensures s.authorizeCalled ==> socket in s.caches.tokens && s.sent == s.caches.tokens[socket]
    ensures !s.authorizeCalled ==> s.sent == None
  {
    if !Truthy(header) then Step(c, Status(400, "No token provided"), false, None, false)
    else
      var c1 := if HasToken(c, socket) then c else c.(tokens := c.tokens[socket := JwtToken(header.value)]);
      var c2 :=
        if HasUser(c1, socket) then c1
        else match answer
          case Granted(u) => c1.(users := c1.users[socket := Some(u)])
          case Nothing => c1.(users := c1.users[socket := None])
          case Throws(_) => c1;
      var sent := if HasUser(c, socket) then None else c1.tokens[socket];
      if !HasUser(c2, socket) then Step(c2, Status(403, "Token unauthorized"), !HasUser(c, socket), sent, true)
      else Step(c2, Next, !HasUser(c, socket), sent, false)
  }

  /** Once a socket has passed, its next attempts pass without asking the
      authorisation service again and without touching either cache. */
  lemma PassedStaysPassed(c: Caches, socket: string, header: Option<string>, a1: AuthAnswer, a2: AuthAnswer)
    requires Middleware(c, socket, header, a1).reply == Next
    requires HasToken(Middleware(c, socket, header, a1).caches, socket)
    ensures var c' := Middleware(c, socket, header, a1).caches;
            Middleware(c', socket, header, a2) == Step(c', Next, false, None, false)
  {
  }

  /** A socket is let through exactly when the service granted a user, now
      or on an earlier attempt. */
  lemma PassIffGranted(c: Caches, socket: string, header: string, answer: AuthAnswer)
    requires header != ""
    ensures Middleware(c, socket, Some(header), answer).reply == Next <==> HasUser(c, socket) || answer.Granted?
  {
  }

  /** A truthy stored token is never replaced, whatever header comes later. */
  lemma TokenKept(c: Caches, socket: string, header: Option<string>, answer: AuthAnswer)
    requires HasToken(c, socket)
    ensures Middleware(c, socket, header, answer).caches.tokens == c.tokens
  {
  }

  /** A socket turned away after its first header gave a token is asked
      about again on every later attempt, always with that first token,
      whatever header the later attempt carries. */
  lemma RejectedRecheckedWithFirstToken(c: Caches, socket: string, h1: string, h2: string, a1: AuthAnswer, a2: AuthAnswer)
    requires !HasToken(c, socket) && h1 != "" && h2 != "" && Truthy(JwtToken(h1))
    requires Middleware(c, socket, Some(h1), a1).reply != Next
    ensures var c' := Middleware(c, socket, Some(h1), a1).caches;
            var s := Middleware(c', socket, Some(h2), a2);
            s.authorizeCalled && s.sent == JwtToken(h1) && s.caches.tokens == c'.tokens
  {
    var c' := Middleware(c, socket, Some(h1), a1).caches;
    assert HasToken(c', socket);
    TokenKept(c', socket, Some(h2), a2);
  }

  // ---------------------------------------------------------------------------
  // init
  // ---------------------------------------------------------------------------

  /** A server instance; `serial` tells instances apart. */
  datatype Server = Server(serial: nat)

  /** `init(webServer, opts)`: build the server only when none exists, and
      always hand back the stored one. `built` is the instance the
      constructor would build. Returns the stored slot and the instance. */
  function Init(io: Option<Server>, built: Server): (r: (Option<Server>, Server))
    ensures r.0 == Some(r.1)
    ensures io.Some? ==> r.1 == io.value
    ensures io.None? ==> r.1 == built
  {
    if io.Some? then (io, io.value) else (Some(built), built)
  }

  /** A second `init` returns the first one's instance, whatever it would
      have built. */
  lemma InitOnce(io: Option<Server>, f1: Server, f2: Server)
    ensures Init(Init(io, f1).0, f2).1 == Init(io, f1).1
  {
  }

  // ---------------------------------------------------------------------------
  // cookies
  // ---------------------------------------------------------------------------

  /** One element of `getCookies`' result: the object `{[key]: value}`,
      whose value is `undefined` for an entry without `=`. */
  datatype Entry = Entry(key: string, value: Option<string>)

  /** The error reading `split` on a missing `cookie` header throws. */
  const NoCookieHeader := Error(TypeErrorCode, "Cannot read properties of undefined (reading 'split')")

  /** `cookies.getCookies(headers)`: one entry per `;`-separated piece, split
      on `=` into key and value; nothing is trimmed and anything after a
      second `=` is dropped. */
  function GetCookies(cookie: Option<string>): (r: Result<seq<Entry>>)
    ensures r.Err? <==> cookie.None?
    ensures r.Ok? ==> |r.value| == |Split(cookie.value, ';')|
    ensures r.Ok? ==> forall i :: 0 <= i < |r.value| ==>
              r.value[i].key == Split(Split(cookie.value, ';')[i], '=')[0]
  {
    match cookie
    case None => Err(NoCookieHeader)
    case Some(h) =>
      var pieces := Split(h, ';');
      Ok(seq(|pieces|, i requires 0 <= i < |pieces| => ToEntry(pieces[i])))
  }

  function ToEntry(piece: string): Entry {
    var kv := Split(piece, '=');
    Entry(kv[0], if |kv| > 1 then Some(kv[1]) else None)
  }

  /** What indexing the array of entries with a string yields: an element
      for a canonical index, the length for `length`, nothing otherwise. */
  datatype Indexed = NoValue | Element(entry: Entry) | Length(n: nat)

  /** The string is the canonical decimal form of an index below `n`. */
  predicate IsIndexBelow(key: string, n: nat) {
    |key| >= 1 && (forall i :: 0 <= i < |key| ==> IsDigit(key[i]))
    && NatToString(ParseNat(key)) == key && ParseNat(key) < n
  }

  /** `cookies.getCookie(headers, key)` as written: it indexes the ARRAY
      `getCookies` returns with the cookie's name, so a name that is neither
      a canonical index nor `length` finds nothing and yields null. */
  function GetCookieAsWritten(cookie: Option<string>, key: string): (r: Result<Indexed>)
    ensures r.Err? <==> cookie.None?
    ensures r.Ok? && !IsIndexBelow(key, |GetCookies(cookie).value|) && key != "length" ==> r.value == NoValue
  {
    match GetCookies(cookie)
    case Err(e) => Err(e)
    case Ok(entries) =>
      if IsIndexBelow(key, |entries|) then Ok(Element(entries[ParseNat(key)]))
      else if key == "length" then Ok(Length(|entries|))
      else Ok(NoValue)
  }

  /** The first entry named `key`, if any. */
  function FirstNamed(entries: seq<Entry>, key: string): (r: Option<Entry>)
    ensures r.Some? ==> r.value.key == key && r.value in entries
    ensures r.None? ==> forall i :: 0 <= i < |entries| ==> entries[i].key != key
  {
    if |entries| == 0 then None
    else if entries[0].key == key then Some(entries[0])
    else FirstNamed(entries[1..], key)
  }

  /** `getCookie` as evidently intended: the value of the first cookie with
      that name, or null when there is none or its value is empty. */
  function FindCookie(cookie: Option<string>, key: string): (r: Result<Option<string>>)
    ensures r.Err? <==> cookie.None?
    ensures r.Ok? && r.value.Some? ==> r.value.value != ""
  {
    match GetCookies(cookie)
    case Err(e) => Err(e)
    case Ok(entries) =>
      var e := FirstNamed(entries, key);
      if e.Some? && Truthy(e.value.value) then Ok(e.value.value) else Ok(None)
  }

  /** A name/value pair a client sets. */
  datatype Pair = Pair(name: string, val: string)

  predicate Plain(s: string) { ';' !in s && '=' !in s }

  /** The `cookie` header a client sends for `pairs`. */
  function Serialize(pairs: seq<Pair>): string
    decreases |pairs|
  {
    if |pairs| == 0 then ""
    else if |pairs| == 1 then pairs[0].name + "=" + pairs[0].val
    else pairs[0].name + "=" + pairs[0].val + ";" + Serialize(pairs[1..])
  }

  /** The first value set for `name`, the reference `FindCookie` is checked
      against. */
  function ValueOf(pairs: seq<Pair>, name: string): Option<string>
    decreases |pairs|
  {
    if |pairs| == 0 then None
    else if pairs[0].name == name then (if pairs[0].val == "" then None else Some(pairs[0].val))
    else ValueOf(pairs[1..], name)
  }

  function PieceOf(p: Pair): string { p.name + "=" + p.val }

  lemma {:induction false} SerializeIsJoin(pairs: seq<Pair>)
    requires |pairs| >= 1
    ensures Serialize(pairs) == Join(seq(|pairs|, i requires 0 <= i < |pairs| => PieceOf(pairs[i])), ';')
    decreases |pairs|
  {
    var ps := seq(|pairs|, i requires 0 <= i < |pairs| => PieceOf(pairs[i]));
    if |pairs| > 1 {
      SerializeIsJoin(pairs[1..]);
      assert ps[1..] == seq(|pairs[1..]|, i requires 0 <= i < |pairs[1..]| => PieceOf(pairs[1..][i]));
    }
  }

  lemma PieceEntry(p: Pair)
    requires Plain(p.name) && Plain(p.val)
    ensures ToEntry(PieceOf(p)) == Entry(p.name, Some(p.val))
  {
    assert PieceOf(p) == p.name + ['='] + p.val;
    SplitCons(p.name, '=', p.val);
    SplitSingle(p.val, '=');
  }

  lemma {:induction false} FirstNamedMatches(pairs: seq<Pair>, entries: seq<Entry>, name: string)
    requires |entries| == |pairs|
    requires forall i :: 0 <= i < |pairs| ==> entries[i] == Entry(pairs[i].name, Some(pairs[i].val))
    ensures ValueOf(pairs, name) ==
              (var e := FirstNamed(entries, name); if e.Some? && Truthy(e.value.value) then e.value.value else None)
    decreases |pairs|
  {
    if |pairs| > 0 && pairs[0].name != name {
      FirstNamedMatches(pairs[1..], entries[1..], name);
    }
  }

  /** Reading back a header built from plain pairs finds the first value
      set for each name. */
  lemma {:induction false} FindCookieRoundTrip(pairs: seq<Pair>, name: string)
    requires |pairs| >= 1
    requires forall i :: 0 <= i < |pairs| ==> Plain(pairs[i].name) && Plain(pairs[i].val)
    ensures FindCookie(Some(Serialize(pairs)), name) == Ok(ValueOf(pairs, name))
  {
    var ps := seq(|pairs|, i requires 0 <= i < |pairs| => PieceOf(pairs[i]));
    SerializeIsJoin(pairs);
    assert forall i :: 0 <= i < |ps| ==> ';' !in ps[i] by {
      forall i | 0 <= i < |ps| ensures ';' !in ps[i] {
        assert ps[i] == pairs[i].name + "=" + pairs[i].val;
      }
    }
    SplitJoin(ps, ';');
    var entries := GetCookies(Some(Serialize(pairs))).value;
    forall i | 0 <= i < |pairs| ensures entries[i] == Entry(pairs[i].name, Some(pairs[i].val)) {
      PieceEntry(pairs[i]);
    }
    FirstNamedMatches(pairs, entries, name);
  }

  /** As written, a plain cookie `a=1` is not found by its name. */
  lemma NamedCookieNotFound()
    ensures GetCookieAsWritten(Some("a=1"), "a") == Ok(NoValue)
    ensures FindCookie(Some("a=1"), "a") == Ok(Some("1"))
  {
    FindCookieRoundTrip([Pair("a", "1")], "a");
    assert Serialize([Pair("a", "1")]) == "a=1";
    assert !IsDigit('a');
  }
}
