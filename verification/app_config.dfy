/** The configuration service (src/services/AppConfigService.ts): a
    process-wide instance holding the application's settings, built from
    the configuration handed to the first caller or from the built-in
    defaults. The deployment code reads the `aws_*` settings through it. */
module AppConfig {
  import opened Common

  /** The settings of `IAppConfig`. */
  datatype Key =
    | MongoUrl | MongoDb | Port | TestPort | Domain | SslCert | SslKey | SecretKey | UserClass
    | UserModels | ControllerList | WsRoutes | HttpRoutes | Commands
    | AwsLambdaRegion | AwsAccessKey | AwsSecretKey | AwsLambdaRole | AwsLambdaBucket

  /** A JSON-like setting value. */
  datatype Value = Null | Str(s: string) | Num(n: int) | Arr(items: seq<Value>) | Obj(fields: map<string, Value>)

  /** The keys whose default is an empty list. */
  predicate IsListKey(k: Key) {
    k == UserModels || k == ControllerList || k == HttpRoutes || k == Commands
  }

  predicate IsAwsKey(k: Key) {
    k == AwsLambdaRegion || k == AwsAccessKey || k == AwsSecretKey || k == AwsLambdaRole || k == AwsLambdaBucket
  }

  /** `AppDefaultConfig`. */
  const DefaultConfig: map<Key, Value> := map[
    MongoUrl := Null, MongoDb := Null, Port := Null, TestPort := Null, Domain := Null,
    SslCert := Null, SslKey := Null, SecretKey := Null, UserClass := Null,
    UserModels := Arr([]), ControllerList := Arr([]), WsRoutes := Obj(map[]), HttpRoutes := Arr([]),
    Commands := Arr([]),
    AwsLambdaRegion := Null, AwsAccessKey := Null, AwsSecretKey := Null, AwsLambdaRole := Null,
    AwsLambdaBucket := Null]

  /** An `AppConfigService` instance: the configuration object it was built
      from. A configuration handed in from outside may lack keys. */
  datatype Service = Service(data: map<Key, Value>)

  /** `get(key)`: exactly the stored value, or nothing (`undefined`) for a
      key the configuration lacks. */
  function Get(svc: Service, k: Key): (r: Option<Value>)
    ensures r.Some? <==> k in svc.data
    ensures r.Some? ==> r.value == svc.data[k]
  {
    if k in svc.data then Some(svc.data[k]) else None
  }

  /** The default configuration has every key: the lists are empty, the
      routes map is empty, and every other setting, including every AWS
      one, is null. */
  lemma DefaultShape(k: Key)
    ensures Get(Service(DefaultConfig), k).Some?
    ensures Get(Service(DefaultConfig), k).value ==
              if IsListKey(k) then Arr([]) else if k == WsRoutes then Obj(map[]) else Null
    ensures IsAwsKey(k) ==> Get(Service(DefaultConfig), k) == Some(Null)
  {
  }

  /** The registry slot `TheService._instances[className]` for this class. */
  type Slot = Option<Service>

  /** `getConfigSingleton(cfg)`: a given configuration always replaces the
      stored instance; without one, the stored instance is kept, or one
      built from the defaults is stored when there is none. Returns the new
      slot and the instance handed back, which is always the stored one. */
  function GetConfigSingleton(slot: Slot, cfg: Option<map<Key, Value>>): (r: (Slot, Service))
    ensures r.0 == Some(r.1)
    ensures cfg.Some? ==> r.1.data == cfg.value
    ensures cfg.None? && slot.Some? ==> r.1 == slot.value
    ensures cfg.None? && slot.None? ==> r.1.data == DefaultConfig
  {
    if cfg.Some? then (Some(Service(cfg.value)), Service(cfg.value))
    else if slot.None? then (Some(Service(DefaultConfig)), Service(DefaultConfig))
    else (slot, slot.value)
  }

  /** A sequence of calls to the exported accessor, each with or without a
      configuration; returns the slot afterwards. */
  function Calls(slot: Slot, cfgs: seq<Option<map<Key, Value>>>): (r: Slot)
    decreases |cfgs|
  {
    if |cfgs| == 0 then slot else Calls(GetConfigSingleton(slot, cfgs[0]).0, cfgs[1..])
  }

  /** The most recent configuration handed in wins: after any sequence of
      calls, the stored instance is built from the last configuration
      given. */
  lemma {:induction false} LastConfigWins(slot: Slot, cfgs: seq<Option<map<Key, Value>>>, i: nat)
    requires i < |cfgs| && cfgs[i].Some?
    requires forall j :: i < j < |cfgs| ==> cfgs[j].None?
    ensures Calls(slot, cfgs) == Some(Service(cfgs[i].value))
    decreases |cfgs|
  {
    var s1 := GetConfigSingleton(slot, cfgs[0]).0;
    if i == 0 {
      KeepAfter(s1, cfgs[1..]);
    } else {
      LastConfigWins(s1, cfgs[1..], i - 1);
    }
  }

  /** Calls without a configuration keep whatever instance is stored. */
  lemma {:induction false} KeepAfter(slot: Slot, cfgs: seq<Option<map<Key, Value>>>)
    requires slot.Some?
    requires forall j :: 0 <= j < |cfgs| ==> cfgs[j].None?
    ensures Calls(slot, cfgs) == slot
    decreases |cfgs|
  {
    if |cfgs| > 0 {
      KeepAfter(GetConfigSingleton(slot, cfgs[0]).0, cfgs[1..]);
    }
  }

  /** Without any configuration handed in, every call sees the defaults. */
  lemma {:induction false} DefaultsWithoutConfig(cfgs: seq<Option<map<Key, Value>>>)
    requires |cfgs| > 0
    requires forall j :: 0 <= j < |cfgs| ==> cfgs[j].None?
    ensures Calls(None, cfgs) == Some(Service(DefaultConfig))
  {
    KeepAfter(Some(Service(DefaultConfig)), cfgs[1..]);
  }
}
