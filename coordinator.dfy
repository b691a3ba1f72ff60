/** The coordinator: it logs in to the vendor account service, finds the robot
    in the account's device list and sends the clean-rooms command. Its state is
    the access token and the device id; the installation uuid and the
    configuration entry never change after construction.

    Each method of ScnrCoordinator is specified by a pure step function over a
    Session value (LoginStep, DeviceStep, RefreshStep, CleanRoomStep), and the
    lemmas below state what the source promises about those steps. */
module Coordinator {
  import opened Python
  import opened Http
  import Const

  /** The arguments of `clean_room`, in its parameter order. */
  datatype CleanCall = CleanCall(roomId: string, mode: string, water: int, fan: int, times: int)

  const LoginUrl := Const.AuthHost + "/account/api/v1/user/login"
  const DeviceListUrl := Const.ApiHost + "/wonder/device/v3/getdevice"
  const InvokeUrl := Const.ApiHost + "/command/cmd/api/v1/func/invoke"

  /* ---------------------------------------------------------------------- */
  /* Outgoing requests                                                       */
  /* ---------------------------------------------------------------------- */

  /** The header set of every request; only `authorization` and the request id vary. */
  function Headers(authorization: Json, uuid: string, requestId: string): map<string, Json>
  {
    map["authorization" := authorization, "uuid" := JStr(uuid), "requestid" := JStr(requestId),
        "appversion" := JStr(Const.AppVersion), "content-type" := JStr(Const.ContentType)]
  }

  /** The password-grant login body. The configuration entry is read for the
      password first, then for the username; a missing key raises KeyError
      before anything is sent. */
  function LoginBody(uuid: string, entryData: map<string, string>): Result<Json>
  {
    if Const.PasswordKey !in entryData then Err(KeyError(Const.PasswordKey))
    else if Const.UsernameKey !in entryData then Err(KeyError(Const.UsernameKey))
    else
      Ok(JObj(map[
        "clientId" := JStr(Const.ClientId),
        "deviceInfo" := JObj(map[
          "deviceId" := JStr(uuid),
          "deviceName" := JStr("Home Assistant"),
          "model" := JStr("Home Assistant")]),
        "grantType" := JStr("password"),
        "password" := JStr(entryData[Const.PasswordKey]),
        "username" := JStr(entryData[Const.UsernameKey]),
        "verifyCode" := JStr("")]))
  }

  /** The login request: empty authorization, identity headers, login body. */
  function LoginRequest(uuid: string, entryData: map<string, string>, requestId: string): Result<Request>
  {
    var body :- LoginBody(uuid, entryData);
    Ok(Request(LoginUrl, Headers(JStr(""), uuid, requestId), body))
  }

  /** The device-list request, authorized by the current token. */
  function DeviceListRequest(token: Json, uuid: string, requestId: string): Request
  {
    Request(DeviceListUrl, Headers(token, uuid, requestId), JObj(map["required_type" := JStr("All")]))
  }

  /** The mode block of the clean command. */
  function ModeBlock(call: CleanCall): Json
  {
    JObj(map[
      "fan_level" := JInt(call.fan),
      "times" := JInt(call.times),
      "type" := JStr(call.mode),
      "water_level" := JInt(call.water)])
  }

  /** The MQTT topic on which the vendor reports the command's result. */
  function NotifyUrl(uuid: string): string
  {
    "v1_1/" + uuid + "/APP_HA_" + uuid + "/funcResp"
  }

  /** The clean-rooms command: function 1001, one room, the mode block both at
      command level and inside the room entry. Nothing is validated. */
  function InvokeBody(deviceId: Json, uuid: string, call: CleanCall): Json
  {
    JObj(map[
      "deviceID" := deviceId,
      "functionID" := JInt(Const.CleanFunctionId),
      "notify" := JObj(map["type" := JStr("mqtt"), "url" := JStr(NotifyUrl(uuid))]),
      "params" := JObj(map["0" := JStr("clean_rooms"), "1" := ArgsBlock(call)])])
  }

  /** The arguments of `clean_rooms`: forced order, the mode block, and one
      room entry that repeats the mode block. */
  function ArgsBlock(call: CleanCall): Json
  {
    JObj(map[
      "force_order" := JBool(true),
      "mode" := ModeBlock(call),
      "rooms" := JArr([JObj(map["mode" := ModeBlock(call), "room_id" := JStr(call.roomId)])])])
  }

  /** The invoke request, authorized by the current token. */
  function InvokeRequest(token: Json, uuid: string, requestId: string, deviceId: Json, call: CleanCall): Request
  {
    Request(InvokeUrl, Headers(token, uuid, requestId), InvokeBody(deviceId, uuid, call))
  }

  /* ---------------------------------------------------------------------- */
  /* Reading the wire payloads back                                          */
  /* ---------------------------------------------------------------------- */

  /** What a clean command addresses and asks for. */
  datatype CleanCommand = CleanCommand(deviceId: Json, notifyUrl: string, call: CleanCall)

  /** `j[key]` when it is a string. */
  function StrField(j: Json, key: string): Option<string>
  {
    var v :- Index(j, key).ToOption();
    if v.JStr? then Some(v.s) else None
  }

  /** `j[key]` when it is an integer. */
  function IntField(j: Json, key: string): Option<int>
  {
    var v :- Index(j, key).ToOption();
    if v.JInt? then Some(v.i) else None
  }

  /** Reads a mode block back into its four settings. */
  function ReadMode(j: Json, roomId: string): Option<CleanCall>
  {
    var fan :- IntField(j, "fan_level");
    var times :- IntField(j, "times");
    var mode :- StrField(j, "type");
    var water :- IntField(j, "water_level");
    Some(CleanCall(roomId, mode, water, fan, times))
  }

  /** Reads the command's arguments: force_order set, exactly one room, and
      the same mode block at command level and in the room entry. */
  function ReadArgs(args: Json): Option<CleanCall>
  {
    var force :- Index(args, "force_order").ToOption();
    var mode :- Index(args, "mode").ToOption();
    var rooms :- Index(args, "rooms").ToOption();
    if force != JBool(true) || !rooms.JArr? || |rooms.items| != 1 then None
    else
      var room := rooms.items[0];
      var roomMode :- Index(room, "mode").ToOption();
      var roomId :- StrField(room, "room_id");
      if roomMode != mode then None else ReadMode(mode, roomId)
  }

  /** Reads a clean command, as the vendor would: it must invoke function 1001
      with action "clean_rooms" and readable arguments. */
  function ReadCleanCommand(body: Json): Option<CleanCommand>
  {
    var deviceId :- Index(body, "deviceID").ToOption();
    var functionId :- Index(body, "functionID").ToOption();
    var notify :- Index(body, "notify").ToOption();
    var channel :- Index(notify, "type").ToOption();
    var url :- StrField(notify, "url");
    var params :- Index(body, "params").ToOption();
    var action :- Index(params, "0").ToOption();
    var args :- Index(params, "1").ToOption();
    if functionId != JInt(Const.CleanFunctionId) || channel != JStr("mqtt") || action != JStr("clean_rooms") then None
    else
      var call :- ReadArgs(args);
      Some(CleanCommand(deviceId, url, call))
  }

  /** Reading the built command back gives exactly the device, the topic and
      the five arguments it was built from. */
  lemma InvokeBodyRoundTrip(deviceId: Json, uuid: string, call: CleanCall)
    ensures ReadCleanCommand(InvokeBody(deviceId, uuid, call)) == Some(CleanCommand(deviceId, NotifyUrl(uuid), call))
  {
    var body := InvokeBody(deviceId, uuid, call);
    var args := ArgsBlock(call);
    var params := JObj(map["0" := JStr("clean_rooms"), "1" := args]);
    var notify := JObj(map["type" := JStr("mqtt"), "url" := JStr(NotifyUrl(uuid))]);
    assert Index(body, "deviceID") == Ok(deviceId) && Index(body, "functionID") == Ok(JInt(Const.CleanFunctionId));
    assert Index(body, "notify") == Ok(notify) && Index(body, "params") == Ok(params);
    assert Index(notify, "type") == Ok(JStr("mqtt")) && StrField(notify, "url") == Some(NotifyUrl(uuid));
    assert Index(params, "0") == Ok(JStr("clean_rooms")) && Index(params, "1") == Ok(args);
    ArgsRoundTrip(call);
  }

  /** The argument block reads back as the call it was built from. */
  lemma ArgsRoundTrip(call: CleanCall)
    ensures ReadArgs(ArgsBlock(call)) == Some(call)
  {
    var args := ArgsBlock(call);
    var room := JObj(map["mode" := ModeBlock(call), "room_id" := JStr(call.roomId)]);
    assert Index(args, "force_order") == Ok(JBool(true)) && Index(args, "mode") == Ok(ModeBlock(call));
    assert Index(args, "rooms") == Ok(JArr([room]));
    assert Index(room, "mode") == Ok(ModeBlock(call)) && StrField(room, "room_id") == Some(call.roomId);
    ModeBlockRoundTrip(call);
  }

  /** The mode block reads back as the four settings it was built from. */
  lemma ModeBlockRoundTrip(call: CleanCall)
    ensures ReadMode(ModeBlock(call), call.roomId) == Some(call)
  {
    var m := ModeBlock(call);
    assert IntField(m, "fan_level") == Some(call.fan) && IntField(m, "times") == Some(call.times);
    assert StrField(m, "type") == Some(call.mode) && IntField(m, "water_level") == Some(call.water);
  }

  /** The notify topic determines the installation uuid it embeds. */
  lemma NotifyUrlInjective(u: string, v: string)
    requires NotifyUrl(u) == NotifyUrl(v)
    ensures u == v
  {
    assert |NotifyUrl(u)| == 2 * |u| + 22;
    assert |u| == |v|;
    assert NotifyUrl(u)[5..5 + |u|] == u;
    assert NotifyUrl(v)[5..5 + |v|] == v;
  }

  /* ---------------------------------------------------------------------- */
  /* Reading the replies                                                     */
  /* ---------------------------------------------------------------------- */

  /** `data["body"]["access_token"]` of the login reply. */
  function TokenOf(reply: Reply): (r: Result<Json>)
    ensures r.Ok? <==> reply.Body? && reply.data.JObj? && "body" in reply.data.fields
                       && reply.data.fields["body"].JObj? && "access_token" in reply.data.fields["body"].fields
    ensures r.Ok? ==> r.value == reply.data.fields["body"].fields["access_token"]
    ensures reply.Failed? ==> r == Err(NetworkError)
  {
    var data :- Decoded(reply);
    var body :- Index(data, "body");
    Index(body, "access_token")
  }

  /** A device entry whose name is readable and contains the target model. */
  predicate Matches(entry: Json)
  {
    Index(entry, "device_name").Ok? && Contains(Index(entry, "device_name").value, Const.TargetModel) == Ok(true)
  }

  /** A device entry whose name is readable and does not contain the target model. */
  predicate Passes(entry: Json)
  {
    Index(entry, "device_name").Ok? && Contains(Index(entry, "device_name").value, Const.TargetModel) == Ok(false)
  }

  /** The `for device in Items` loop over a list: the mac of the first entry
      whose name contains the target model, None when the loop runs out, or the
      exception an entry raised before that. */
  function SelectDevice(entries: seq<Json>): Result<Option<Json>>
  {
    if entries == [] then Ok(None)
    else
      var name :- Index(entries[0], "device_name");
      var hit :- Contains(name, Const.TargetModel);
      if hit then
        var mac :- Index(entries[0], "device_mac");
        Ok(Some(mac))
      else SelectDevice(entries[1..])
  }

  /** The loop over `Items` whatever its type. Iterating a non-empty string or
      dict yields strings, and subscripting a string by "device_name" raises
      TypeError; values that are not iterable raise TypeError at once. */
  function ScanItems(items: Json): Result<Option<Json>>
  {
    match items
    case JArr(entries) => SelectDevice(entries)
    case JStr(s) => if s == "" then Ok(None) else Err(TypeError)
    case JObj(m) => if m == map[] then Ok(None) else Err(TypeError)
    case _ => Err(TypeError)
  }

  /** The device lookup's reading of the device-list reply. */
  function DeviceOf(reply: Reply): Result<Option<Json>>
  {
    var data :- Decoded(reply);
    var body :- Index(data, "body");
    var items :- Index(body, "Items");
    ScanItems(items)
  }

  /** First match wins: when every entry before position k is examined and
      passed over and entry k matches, the lookup yields entry k's mac (or its
      KeyError), whatever follows. */
  lemma {:induction false} SelectDeviceFirstMatch(entries: seq<Json>, k: nat)
    requires k < |entries|
    requires forall j :: 0 <= j < k ==> Passes(entries[j])
    requires Matches(entries[k])
    ensures SelectDevice(entries) ==
            match Index(entries[k], "device_mac")
            case Ok(mac) => Ok(Some(mac))
            case Err(e) => Err(e)
  {
    if k > 0 {
      assert Passes(entries[0]);
      SelectDeviceFirstMatch(entries[1..], k - 1);
    }
  }

  /** Conversely, a found mac belongs to the first matching entry. */
  lemma {:induction false} SelectDeviceFound(entries: seq<Json>, mac: Json) returns (k: nat)
    requires SelectDevice(entries) == Ok(Some(mac))
    ensures k < |entries| && Matches(entries[k]) && Index(entries[k], "device_mac") == Ok(mac)
    ensures forall j :: 0 <= j < k ==> Passes(entries[j])
  {
    if Matches(entries[0]) {
      k := 0;
    } else {
      var k' := SelectDeviceFound(entries[1..], mac);
      k := k' + 1;
      assert forall j :: 1 <= j < k ==> entries[j] == entries[1..][j - 1];
    }
  }

  /** No match leaves the device unresolved, without an error, exactly when
      every entry is readable and passed over. */
  lemma {:induction false} SelectDeviceNone(entries: seq<Json>)
    ensures SelectDevice(entries) == Ok(None) <==> forall j :: 0 <= j < |entries| ==> Passes(entries[j])
  {
    if entries != [] {
      SelectDeviceNone(entries[1..]);
      if forall j :: 0 <= j < |entries| ==> Passes(entries[j]) {
        assert Passes(entries[0]);
        assert forall j :: 0 <= j < |entries| - 1 ==> entries[1..][j] == entries[j + 1];
      }
      if SelectDevice(entries) == Ok(None) {
        assert Passes(entries[0]);
        assert forall j :: 1 <= j < |entries| ==> entries[j] == entries[1..][j - 1];
      }
    }
  }

  /* ---------------------------------------------------------------------- */
  /* The coordinator's state and its steps, as values                        */
  /* ---------------------------------------------------------------------- */

  /** The coordinator's mutable fields. */
  datatype Session = Session(accessToken: Json, deviceId: Json)

  /** What one method does: its result or exception, the fields afterwards, the
      requests it sent in order, and how many request ids have been drawn. */
  datatype Step<T> = Step(result: Result<T>, session: Session, sent: seq<Request>, drawn: nat)

  /** `_login`: draw a request id, build the request (which may raise KeyError
      before sending), send it, store `body.access_token`. */
  function LoginStep(uuid: string, entryData: map<string, string>, env: Env, s: Session, drawn: nat): Step<()>
  {
    var requestId := env.uuids(drawn);
    match LoginRequest(uuid, entryData, requestId)
    case Err(e) => Step(Err(e), s, [], drawn + 1)
    case Ok(req) =>
      match TokenOf(env.respond(req))
      case Err(e) => Step(Err(e), s, [req], drawn + 1)
      case Ok(token) => Step(Ok(()), s.(accessToken := token), [req], drawn + 1)
  }

  /** `_get_device`: list the devices with the current token and store the mac
      of the first match; without a match the device id stays as it was. */
  function DeviceStep(uuid: string, env: Env, s: Session, drawn: nat): Step<()>
  {
    var req := DeviceListRequest(s.accessToken, uuid, env.uuids(drawn));
    match DeviceOf(env.respond(req))
    case Err(e) => Step(Err(e), s, [req], drawn + 1)
    case Ok(None) => Step(Ok(()), s, [req], drawn + 1)
    case Ok(Some(mac)) => Step(Ok(()), s.(deviceId := mac), [req], drawn + 1)
  }

  /** `_async_update_data`: login, then device lookup, then the empty dict. */
  function RefreshStep(uuid: string, entryData: map<string, string>, env: Env, s: Session, drawn: nat): Step<Json>
  {
    var login := LoginStep(uuid, entryData, env, s, drawn);
    if login.result.Err? then Step(Err(login.result.error), login.session, login.sent, login.drawn)
    else
      var lookup := DeviceStep(uuid, env, login.session, login.drawn);
      var result := if lookup.result.Err? then Err(lookup.result.error) else Ok(JObj(map[]));
      Step(result, lookup.session, login.sent + lookup.sent, lookup.drawn)
  }

  /** `clean_room`: refresh, then send the command with the refreshed token and
      device id, and return the decoded reply as it is. */
  function CleanRoomStep(uuid: string, entryData: map<string, string>, env: Env, s: Session, drawn: nat,
                         call: CleanCall): Step<Json>
  {
    var refresh := RefreshStep(uuid, entryData, env, s, drawn);
    if refresh.result.Err? then refresh
    else
      var session := refresh.session;
      var req := InvokeRequest(session.accessToken, uuid, env.uuids(refresh.drawn), session.deviceId, call);
      Step(Decoded(env.respond(req)), session, refresh.sent + [req], refresh.drawn + 1)
  }

  /** The device-list reply's `body.Items` is the list `entries`. */
  predicate ListsDevices(reply: Reply, entries: seq<Json>)
  {
    reply.Body? && Index(reply.data, "body").Ok? && Index(Index(reply.data, "body").value, "Items") == Ok(JArr(entries))
  }

  /** Device lookup stores the mac of the first matching entry, and nothing
      else changes. */
  lemma DeviceStepFirstMatch(uuid: string, env: Env, s: Session, drawn: nat, entries: seq<Json>, k: nat)
    requires ListsDevices(env.respond(DeviceListRequest(s.accessToken, uuid, env.uuids(drawn))), entries)
    requires k < |entries| && Matches(entries[k]) && Index(entries[k], "device_mac").Ok?
    requires forall j :: 0 <= j < k ==> Passes(entries[j])
    ensures DeviceStep(uuid, env, s, drawn).result == Ok(())
    ensures DeviceStep(uuid, env, s, drawn).session == s.(deviceId := Index(entries[k], "device_mac").value)
  {
    SelectDeviceFirstMatch(entries, k);
  }

  /** Without a matching entry, device lookup succeeds and leaves the device id
      as it was, absent or the previous one. */
  lemma DeviceStepNoMatch(uuid: string, env: Env, s: Session, drawn: nat, entries: seq<Json>)
    requires ListsDevices(env.respond(DeviceListRequest(s.accessToken, uuid, env.uuids(drawn))), entries)
    requires forall j :: 0 <= j < |entries| ==> Passes(entries[j])
    ensures DeviceStep(uuid, env, s, drawn).result == Ok(())
    ensures DeviceStep(uuid, env, s, drawn).session == s
  {
    SelectDeviceNone(entries);
  }

  /** The number of clean commands among a run of requests. */
  function CountInvokes(sent: seq<Request>): nat
  {
    if sent == [] then 0 else (if sent[0].url == InvokeUrl then 1 else 0) + CountInvokes(sent[1..])
  }

  lemma {:induction false} CountInvokesAppend(a: seq<Request>, b: seq<Request>)
    ensures CountInvokes(a + b) == CountInvokes(a) + CountInvokes(b)
  {
    if a != [] {
      assert (a + b)[0] == a[0] && (a + b)[1..] == a[1..] + b;
      CountInvokesAppend(a[1..], b);
    } else {
      assert a + b == b;
    }
  }

  /** The login request carries an empty authorization, the installation uuid
      as header and as `deviceInfo.deviceId`, the password grant with an empty
      verify code, and the configured credentials; it exists exactly when both
      credentials are configured. */
  lemma LoginRequestShape(uuid: string, entryData: map<string, string>, requestId: string)
    ensures LoginRequest(uuid, entryData, requestId).Ok? <==>
            Const.PasswordKey in entryData && Const.UsernameKey in entryData
    ensures LoginRequest(uuid, entryData, requestId).Ok? ==>
            var req := LoginRequest(uuid, entryData, requestId).value;
            && req.url == LoginUrl
            && req.headers["authorization"] == JStr("")
            && req.headers["uuid"] == JStr(uuid)
            && Index(Index(req.body, "deviceInfo").value, "deviceId") == Ok(JStr(uuid))
            && Index(req.body, "grantType") == Ok(JStr("password"))
            && Index(req.body, "verifyCode") == Ok(JStr(""))
            && Index(req.body, "username") == Ok(JStr(entryData[Const.UsernameKey]))
            && Index(req.body, "password") == Ok(JStr(entryData[Const.PasswordKey]))
  {
  }

  /** The requests a refresh sends, its result and the token it stores do not
      depend on the fields it starts from (no caching); the device id it leaves
      does, since an id from before survives a list with no match. It sends
      login, then device lookup. On success it returns the empty dict, holds
      the token of the login reply, and sent the lookup with it. */
  lemma RefreshLoginThenLookup(uuid: string, entryData: map<string, string>, env: Env, s: Session, s': Session,
                               drawn: nat)
    ensures var st := RefreshStep(uuid, entryData, env, s, drawn);
            var st' := RefreshStep(uuid, entryData, env, s', drawn);
            && st.sent == st'.sent && st.result == st'.result && st.drawn == st'.drawn
            && |st.sent| <= 2
            && (|st.sent| >= 1 ==> st.sent[0] == LoginRequest(uuid, entryData, env.uuids(drawn)).value)
            && (|st.sent| >= 1 ==> (|st.sent| == 2 <==> TokenOf(env.respond(st.sent[0])).Ok?))
            && (|st.sent| == 2 ==>
                  && st.session.accessToken == st'.session.accessToken == TokenOf(env.respond(st.sent[0])).value
                  && st.sent[1] == DeviceListRequest(st.session.accessToken, uuid, env.uuids(drawn + 1)))
            && (st.result.Ok? ==> |st.sent| == 2 && st.result.value == JObj(map[]))
            && (|st.sent| >= 1 <==> Const.PasswordKey in entryData && Const.UsernameKey in entryData)
            && (var login := LoginStep(uuid, entryData, env, s, drawn);
                st.result.Ok? <==> login.result.Ok? && DeviceStep(uuid, env, login.session, drawn + 1).result.Ok?)
  {
    LoginRequestShape(uuid, entryData, env.uuids(drawn));
    var login := LoginStep(uuid, entryData, env, s, drawn);
    var login' := LoginStep(uuid, entryData, env, s', drawn);
    assert login.sent == login'.sent && login.result == login'.result && login.drawn == login'.drawn;
    if login.result.Ok? {
      assert login.session.accessToken == login'.session.accessToken;
      var lookup := DeviceStep(uuid, env, login.session, login.drawn);
      var lookup' := DeviceStep(uuid, env, login'.session, login'.drawn);
      assert lookup.sent == lookup'.sent && lookup.result == lookup'.result;
    }
  }

  /** A clean cycle sends at most one command, and sends it exactly when the
      refresh succeeded. The command is the last request; it carries the
      refreshed token and device id (whether or not a device matched) and the
      five arguments unchanged, and its decoded reply is the result. */
  lemma CleanRoomInvokesOnce(uuid: string, entryData: map<string, string>, env: Env, s: Session, drawn: nat,
                             call: CleanCall)
    ensures var refresh := RefreshStep(uuid, entryData, env, s, drawn);
            var st := CleanRoomStep(uuid, entryData, env, s, drawn, call);
            && CountInvokes(st.sent) <= 1
            && (CountInvokes(st.sent) == 1 <==> refresh.result.Ok?)
            && (refresh.result.Ok? ==>
                  var req := st.sent[|st.sent| - 1];
                  && st.session == refresh.session
                  && req == InvokeRequest(st.session.accessToken, uuid, env.uuids(refresh.drawn), st.session.deviceId, call)
                  && ReadCleanCommand(req.body) == Some(CleanCommand(st.session.deviceId, NotifyUrl(uuid), call))
                  && st.result == Decoded(env.respond(req)))
  {
    var refresh := RefreshStep(uuid, entryData, env, s, drawn);
    var login := LoginStep(uuid, entryData, env, s, drawn);
    assert CountInvokes(login.sent) == 0 by {
      if login.sent != [] {
        assert login.sent[1..] == [];
      }
    }
    if login.result.Ok? {
      var lookup := DeviceStep(uuid, env, login.session, login.drawn);
      assert lookup.sent[1..] == [];
      CountInvokesAppend(login.sent, lookup.sent);
    }
    assert CountInvokes(refresh.sent) == 0;
    if refresh.result.Ok? {
      var st := CleanRoomStep(uuid, entryData, env, s, drawn, call);
      var req := st.sent[|st.sent| - 1];
      assert [req][1..] == [];
      CountInvokesAppend(refresh.sent, [req]);
      InvokeBodyRoundTrip(st.session.deviceId, uuid, call);
    }
  }

  /** The request's `authorization` header is `token`. */
  predicate AuthorizedBy(req: Request, token: Json)
  {
    "authorization" in req.headers && req.headers["authorization"] == token
  }

  /** The request's `uuid` header is the installation uuid. */
  predicate FromInstallation(req: Request, uuid: string)
  {
    "uuid" in req.headers && req.headers["uuid"] == JStr(uuid)
  }

  /** A request built on `Headers` carries its authorization and the uuid. */
  lemma HeadersCarry(req: Request, authorization: Json, uuid: string, requestId: string)
    requires req.headers == Headers(authorization, uuid, requestId)
    ensures AuthorizedBy(req, authorization) && FromInstallation(req, uuid)
  {
  }

  /** Every authorized request of a clean cycle (the device list and the
      command) carries the coordinator's token at that moment and its
      installation uuid; the login carries an empty authorization. */
  lemma CleanRoomAuthorization(uuid: string, entryData: map<string, string>, env: Env, s: Session, drawn: nat,
                               call: CleanCall)
    ensures var st := CleanRoomStep(uuid, entryData, env, s, drawn, call);
            && (|st.sent| >= 1 ==> AuthorizedBy(st.sent[0], JStr("")))
            && forall k :: 0 <= k < |st.sent| ==>
                 && FromInstallation(st.sent[k], uuid)
                 && (k >= 1 ==> AuthorizedBy(st.sent[k], st.session.accessToken))
  {
    var st := CleanRoomStep(uuid, entryData, env, s, drawn, call);
    var refresh := RefreshStep(uuid, entryData, env, s, drawn);
    var login := LoginStep(uuid, entryData, env, s, drawn);
    if login.result.Ok? {
      var req := LoginRequest(uuid, entryData, env.uuids(drawn)).value;
      assert login.sent == [req];
      HeadersCarry(req, JStr(""), uuid, env.uuids(drawn));
      var lookup := DeviceStep(uuid, env, login.session, login.drawn);
      var list := DeviceListRequest(login.session.accessToken, uuid, env.uuids(login.drawn));
      assert lookup.sent == [list] && lookup.session.accessToken == login.session.accessToken;
      HeadersCarry(list, login.session.accessToken, uuid, env.uuids(login.drawn));
      assert refresh.sent == [req, list];
      if refresh.result.Ok? {
        var inv := InvokeRequest(refresh.session.accessToken, uuid, env.uuids(refresh.drawn), refresh.session.deviceId,
                                 call);
        HeadersCarry(inv, refresh.session.accessToken, uuid, env.uuids(refresh.drawn));
        assert st.sent == [req, list, inv];
      } else {
        assert st.sent == [req, list];
      }
    } else {
      assert |st.sent| <= 1;
    }
  }

  /* ---------------------------------------------------------------------- */
  /* The coordinator object                                                  */
  /* ---------------------------------------------------------------------- */

  class ScnrCoordinator {
    /** The installation uuid, fixed at construction. */
    const uuid: string
    /** The configuration entry's data (username and password). */
    const entryData: map<string, string>
    var accessToken: Json
    var deviceId: Json

    function State(): Session
      reads this
    {
      Session(accessToken, deviceId)
    }

    /** No token and no device yet; `uuid` is the installation uuid drawn once. */
    constructor (uuid: string, entryData: map<string, string>)
      ensures this.uuid == uuid && this.entryData == entryData
      ensures accessToken == JNull && deviceId == JNull
    {
      this.uuid := uuid;
      this.entryData := entryData;
      accessToken := JNull;
      deviceId := JNull;
    }

    method Login(net: Transport) returns (r: Result<()>)
      modifies this, net
      ensures var st := LoginStep(uuid, entryData, net.env, old(State()), old(net.drawn));
              r == st.result && State() == st.session && net.log == old(net.log) + st.sent && net.drawn == st.drawn
    {
      var requestId := net.NewRequestId();
      var req := LoginRequest(uuid, entryData, requestId);
      if req.Err? {
        return Err(req.error);
      }
      var reply := net.Post(req.value);
      var token := TokenOf(reply);
      if token.Err? {
        return Err(token.error);
      }
      accessToken := token.value;
      r := Ok(());
    }

    method GetDevice(net: Transport) returns (r: Result<()>)
      modifies this, net
      ensures var st := DeviceStep(uuid, net.env, old(State()), old(net.drawn));
              r == st.result && State() == st.session && net.log == old(net.log) + st.sent && net.drawn == st.drawn
    {
      var requestId := net.NewRequestId();
      var reply := net.Post(DeviceListRequest(accessToken, uuid, requestId));
      var data :- Decoded(reply);
      var body :- Index(data, "body");
      var items :- Index(body, "Items");
      if !items.JArr? {
        var none :- ScanItems(items);
        return Ok(());
      }
      var devices := items.items;
      var i := 0;
      while i < |devices|
        invariant 0 <= i <= |devices|
        invariant State() == old(State())
        invariant SelectDevice(devices[i..]) == SelectDevice(devices)
      {
        assert devices[i..][0] == devices[i] && devices[i..][1..] == devices[i + 1..];
        var name := Index(devices[i], "device_name");
        if name.Err? {
          return Err(name.error);
        }
        var hit := Contains(name.value, Const.TargetModel);
        if hit.Err? {
          return Err(hit.error);
        }
        if hit.value {
          var mac := Index(devices[i], "device_mac");
          if mac.Err? {
            return Err(mac.error);
          }
          deviceId := mac.value;
          break;
        }
        i := i + 1;
      }
      r := Ok(());
    }

    /** `_async_update_data`, with both calls unconditional. */
    method Refresh(net: Transport) returns (r: Result<Json>)
      modifies this, net
      ensures var st := RefreshStep(uuid, entryData, net.env, old(State()), old(net.drawn));
              r == st.result && State() == st.session && net.log == old(net.log) + st.sent && net.drawn == st.drawn
    {
      var login := Login(net);
      if login.Err? {
        return Err(login.error);
      }
      ghost var afterLogin := net.log;
      var lookup := GetDevice(net);
      assert net.log == old(net.log) + (afterLogin[|old(net.log)|..] + net.log[|afterLogin|..]);
      if lookup.Err? {
        return Err(lookup.error);
      }
      r := Ok(JObj(map[]));
    }

    method CleanRoom(roomId: string, mode: string, water: int, fan: int, times: int, net: Transport)
      returns (r: Result<Json>)
      modifies this, net
      ensures var st := CleanRoomStep(uuid, entryData, net.env, old(State()), old(net.drawn),
                                      CleanCall(roomId, mode, water, fan, times));
              r == st.result && State() == st.session && net.log == old(net.log) + st.sent && net.drawn == st.drawn
    {
      var refreshed := Refresh(net);
      if refreshed.Err? {
        return Err(refreshed.error);
      }
      var requestId := net.NewRequestId();
      var reply := net.Post(InvokeRequest(accessToken, uuid, requestId, deviceId, CleanCall(roomId, mode, water, fan, times)));
      r := Decoded(reply);
    }
  }
}
