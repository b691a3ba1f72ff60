/** The clean button. A press reads the five setting entities of the
    coordinator's device from the host's state machine; when one is missing it
    gives up, otherwise it coerces the three numeric settings with
    `int(float(...))` and calls `clean_room` once. There is no retry and no
    range check. */
module Button {
  import opened Python
  import opened Http
  import opened Coordinator
  import Const

  const RoomSuffix := "room_select"
  const ModeSuffix := "mode_select"
  const WaterSuffix := "water_level"
  const FanSuffix := "fan_level"
  const TimesSuffix := "clean_times"

  /** The five suffixes in the order the press looks them up. */
  const Suffixes := [RoomSuffix, ModeSuffix, WaterSuffix, FanSuffix, TimesSuffix]

  /** The entity id of one setting entity of the device. */
  function StateKey(deviceId: Json, suffix: string): string
  {
    Const.Domain + "." + Str(deviceId) + "_" + suffix
  }

  /** Different settings are looked up under different entity ids. */
  lemma StateKeyInjective(deviceId: Json, a: string, b: string)
    requires StateKey(deviceId, a) == StateKey(deviceId, b)
    ensures a == b
  {
    var prefix := Const.Domain + "." + Str(deviceId) + "_";
    assert StateKey(deviceId, a) == prefix + a && StateKey(deviceId, b) == prefix + b;
    assert (prefix + a)[|prefix|..] == a;
    assert (prefix + b)[|prefix|..] == b;
  }

  /** What a press does: give up because a setting entity is missing, raise
      while coercing a numeric setting, or call `clean_room` with these arguments. */
  datatype Decision = MissingEntity | Raises(error: Exc) | Dispatch(call: CleanCall)

  /** All five setting entities of the device have a state. */
  predicate AllPresent(deviceId: Json, states: map<string, string>)
  {
    && StateKey(deviceId, RoomSuffix) in states && StateKey(deviceId, ModeSuffix) in states
    && StateKey(deviceId, WaterSuffix) in states && StateKey(deviceId, FanSuffix) in states
    && StateKey(deviceId, TimesSuffix) in states
  }

  /** The press's decision, from the device id the coordinator holds and the
      host's current states (entity id to state string). */
  function Decide(deviceId: Json, states: map<string, string>): (d: Decision)
    ensures d.Dispatch? ==>
              && AllPresent(deviceId, states)
              && d.call.roomId == states[StateKey(deviceId, RoomSuffix)]
              && d.call.mode == states[StateKey(deviceId, ModeSuffix)]
              && TruncatedFloat(states[StateKey(deviceId, WaterSuffix)]) == Ok(d.call.water)
              && TruncatedFloat(states[StateKey(deviceId, FanSuffix)]) == Ok(d.call.fan)
              && TruncatedFloat(states[StateKey(deviceId, TimesSuffix)]) == Ok(d.call.times)
  {
    var roomKey, modeKey := StateKey(deviceId, RoomSuffix), StateKey(deviceId, ModeSuffix);
    var waterKey, fanKey, timesKey :=
      StateKey(deviceId, WaterSuffix), StateKey(deviceId, FanSuffix), StateKey(deviceId, TimesSuffix);
    if !AllPresent(deviceId, states) then
      MissingEntity
    else
      var water := TruncatedFloat(states[waterKey]);
      var fan := TruncatedFloat(states[fanKey]);
      var times := TruncatedFloat(states[timesKey]);
      if water.Err? then Raises(water.error)
      else if fan.Err? then Raises(fan.error)
      else if times.Err? then Raises(times.error)
      else Dispatch(CleanCall(states[roomKey], states[modeKey], water.value, fan.value, times.value))
  }

  /** The press gives up exactly when one of the five settings has no state. */
  lemma DecideMissing(deviceId: Json, states: map<string, string>)
    ensures Decide(deviceId, states).MissingEntity? <==>
            exists i :: 0 <= i < |Suffixes| && StateKey(deviceId, Suffixes[i]) !in states
  {
    assert Decide(deviceId, states).MissingEntity? <==> !AllPresent(deviceId, states);
    if AllPresent(deviceId, states) {
      forall i | 0 <= i < |Suffixes|
        ensures StateKey(deviceId, Suffixes[i]) in states
      {
        assert Suffixes[i] in {RoomSuffix, ModeSuffix, WaterSuffix, FanSuffix, TimesSuffix};
      }
    } else if StateKey(deviceId, RoomSuffix) !in states {
      assert StateKey(deviceId, Suffixes[0]) !in states;
    } else if StateKey(deviceId, ModeSuffix) !in states {
      assert StateKey(deviceId, Suffixes[1]) !in states;
    } else if StateKey(deviceId, WaterSuffix) !in states {
      assert StateKey(deviceId, Suffixes[2]) !in states;
    } else if StateKey(deviceId, FanSuffix) !in states {
      assert StateKey(deviceId, Suffixes[3]) !in states;
    } else {
      assert StateKey(deviceId, Suffixes[4]) !in states;
    }
  }

  /** A press that raises does so at the first of water, fan and times whose
      coercion fails; the ones before it coerced. */
  lemma DecideRaisesFirst(deviceId: Json, states: map<string, string>)
    requires Decide(deviceId, states).Raises?
    ensures forall k :: 0 <= k < |Suffixes| ==> StateKey(deviceId, Suffixes[k]) in states
    ensures exists i :: 2 <= i < |Suffixes|
              && TruncatedFloat(states[StateKey(deviceId, Suffixes[i])]) == Err(Decide(deviceId, states).error)
              && forall j :: 2 <= j < i ==> TruncatedFloat(states[StateKey(deviceId, Suffixes[j])]).Ok?
  {
    assert Suffixes[0] == RoomSuffix && Suffixes[1] == ModeSuffix && Suffixes[2] == WaterSuffix;
    assert Suffixes[3] == FanSuffix && Suffixes[4] == TimesSuffix;
    var water := TruncatedFloat(states[StateKey(deviceId, WaterSuffix)]);
    var fan := TruncatedFloat(states[StateKey(deviceId, FanSuffix)]);
    if water.Err? {
      assert TruncatedFloat(states[StateKey(deviceId, Suffixes[2])]) == Err(Decide(deviceId, states).error);
    } else if fan.Err? {
      assert TruncatedFloat(states[StateKey(deviceId, Suffixes[3])]) == Err(Decide(deviceId, states).error);
    } else {
      assert TruncatedFloat(states[StateKey(deviceId, Suffixes[4])]) == Err(Decide(deviceId, states).error);
    }
  }

  /** A host state map that holds the five settings of a device under the
      button's keys, and nothing else. */
  function SettingsStates(deviceId: Json, room: string, mode: string, water: string, fan: string, times: string)
    : map<string, string>
  {
    map[StateKey(deviceId, RoomSuffix) := room, StateKey(deviceId, ModeSuffix) := mode,
        StateKey(deviceId, WaterSuffix) := water, StateKey(deviceId, FanSuffix) := fan,
        StateKey(deviceId, TimesSuffix) := times]
  }

  /** Each setting entity of `SettingsStates` holds its own value: the five
      entity ids are distinct. */
  lemma SettingsLookup(deviceId: Json, room: string, mode: string, water: string, fan: string, times: string)
    ensures var states := SettingsStates(deviceId, room, mode, water, fan, times);
            && StateKey(deviceId, RoomSuffix) in states && states[StateKey(deviceId, RoomSuffix)] == room
            && StateKey(deviceId, ModeSuffix) in states && states[StateKey(deviceId, ModeSuffix)] == mode
            && StateKey(deviceId, WaterSuffix) in states && states[StateKey(deviceId, WaterSuffix)] == water
            && StateKey(deviceId, FanSuffix) in states && states[StateKey(deviceId, FanSuffix)] == fan
            && StateKey(deviceId, TimesSuffix) in states && states[StateKey(deviceId, TimesSuffix)] == times
  {
    forall a, b | a in Suffixes && b in Suffixes && a != b
      ensures StateKey(deviceId, a) != StateKey(deviceId, b)
    {
      if StateKey(deviceId, a) == StateKey(deviceId, b) {
        StateKeyInjective(deviceId, a, b);
      }
    }
  }

  /** Conversely to the dispatch postcondition of `Decide`: with all five
      entities present and the three numeric ones coercible, the press
      dispatches exactly those values. */
  lemma DecideDispatches(deviceId: Json, states: map<string, string>)
    requires AllPresent(deviceId, states)
    requires TruncatedFloat(states[StateKey(deviceId, WaterSuffix)]).Ok?
    requires TruncatedFloat(states[StateKey(deviceId, FanSuffix)]).Ok?
    requires TruncatedFloat(states[StateKey(deviceId, TimesSuffix)]).Ok?
    ensures Decide(deviceId, states) == Dispatch(CleanCall(
              states[StateKey(deviceId, RoomSuffix)], states[StateKey(deviceId, ModeSuffix)],
              TruncatedFloat(states[StateKey(deviceId, WaterSuffix)]).value,
              TruncatedFloat(states[StateKey(deviceId, FanSuffix)]).value,
              TruncatedFloat(states[StateKey(deviceId, TimesSuffix)]).value))
  {
  }

  /** Numeric settings held as float text ("2.0") reach `clean_room` as the
      integers they stand for, and the room and mode strings unchanged, in the
      order of its parameters. */
  lemma DecideForwardsSettings(deviceId: Json, room: string, mode: string, water: int, fan: int, times: int)
    ensures Decide(deviceId, SettingsStates(deviceId, room, mode, IntToDecimal(water) + ".0",
                                            IntToDecimal(fan) + ".0", IntToDecimal(times) + ".0"))
            == Dispatch(CleanCall(room, mode, water, fan, times))
  {
    var w, f, t := IntToDecimal(water) + ".0", IntToDecimal(fan) + ".0", IntToDecimal(times) + ".0";
    var states := SettingsStates(deviceId, room, mode, w, f, t);
    SettingsLookup(deviceId, room, mode, w, f, t);
    TruncatedFloatOfFloatText(water);
    TruncatedFloatOfFloatText(fan);
    TruncatedFloatOfFloatText(times);
    DecideDispatches(deviceId, states);
  }

  /** When the host holds the settings' initial values ("ROOM_000", "sweep",
      and "1" for each number) under the button's keys, a press dispatches,
      whatever the device id. */
  lemma DefaultSettingsDispatch(deviceId: Json)
    ensures var level := IntToDecimal(Const.DefaultLevel);
            Decide(deviceId, SettingsStates(deviceId, Const.DefaultRoom, Const.DefaultMode, level, level, level))
            == Dispatch(CleanCall(Const.DefaultRoom, Const.DefaultMode,
                                  Const.DefaultLevel, Const.DefaultLevel, Const.DefaultLevel))
  {
    var level := IntToDecimal(Const.DefaultLevel);
    var states := SettingsStates(deviceId, Const.DefaultRoom, Const.DefaultMode, level, level, level);
    SettingsLookup(deviceId, Const.DefaultRoom, Const.DefaultMode, level, level, level);
    TruncatedFloatOfDecimal(Const.DefaultLevel);
    DecideDispatches(deviceId, states);
  }

  /** A numeric setting without any digit ("abc") makes the press raise, so
      `clean_room` is not called. */
  lemma NonNumericSettingRaises(deviceId: Json, states: map<string, string>, i: nat)
    requires 2 <= i < |Suffixes|
    requires forall k :: 0 <= k < |Suffixes| ==> StateKey(deviceId, Suffixes[k]) in states
    requires forall c :: c in states[StateKey(deviceId, Suffixes[i])] ==> !IsDigit(c)
    ensures Decide(deviceId, states).Raises?
  {
    var text := states[StateKey(deviceId, Suffixes[i])];
    assert forall k :: 0 <= k < |text| ==> text[k] in text;
    TruncatedFloatNeedsDigit(text);
    DecideMissing(deviceId, states);
    assert Suffixes[2] == WaterSuffix && Suffixes[3] == FanSuffix && Suffixes[4] == TimesSuffix;
  }

  /** The whole press as a step of the coordinator: nothing is sent and no field
      changes unless the decision is to dispatch; then it is one clean cycle,
      whose reply is discarded. */
  function PressStep(uuid: string, entryData: map<string, string>, env: Env, s: Session, drawn: nat,
                     states: map<string, string>): Step<()>
  {
    match Decide(s.deviceId, states)
    case MissingEntity => Step(Ok(()), s, [], drawn)
    case Raises(e) => Step(Err(e), s, [], drawn)
    case Dispatch(call) =>
      var cycle := CleanRoomStep(uuid, entryData, env, s, drawn, call);
      Step(if cycle.result.Err? then Err(cycle.result.error) else Ok(()), cycle.session, cycle.sent, cycle.drawn)
  }

  /** A press that dispatches `call` is one clean cycle with `call`; only the
      cycle's reply is dropped. */
  lemma PressIsCleanCycle(uuid: string, entryData: map<string, string>, env: Env, s: Session, drawn: nat,
                          states: map<string, string>, call: CleanCall)
    requires Decide(s.deviceId, states) == Dispatch(call)
    ensures var st := PressStep(uuid, entryData, env, s, drawn, states);
            var cycle := CleanRoomStep(uuid, entryData, env, s, drawn, call);
            && st.sent == cycle.sent && st.session == cycle.session && st.drawn == cycle.drawn
            && (st.result.Ok? <==> cycle.result.Ok?)
  {
  }

  /** One attempt per press: at most three requests and at most one clean
      command. A press that does not dispatch sends nothing and changes
      nothing; a command that is sent carries the decided arguments. */
  lemma PressAtMostOnce(uuid: string, entryData: map<string, string>, env: Env, s: Session, drawn: nat,
                        states: map<string, string>)
    ensures var st := PressStep(uuid, entryData, env, s, drawn, states);
            var d := Decide(s.deviceId, states);
            && |st.sent| <= 3
            && CountInvokes(st.sent) <= 1
            && (!d.Dispatch? ==> st.sent == [] && st.session == s && st.drawn == drawn)
            && (CountInvokes(st.sent) == 1 ==>
                  d.Dispatch? && st.sent[|st.sent| - 1].url == InvokeUrl
                  && ReadCleanCommand(st.sent[|st.sent| - 1].body)
                     == Some(CleanCommand(st.session.deviceId, NotifyUrl(uuid), d.call)))
  {
    var d := Decide(s.deviceId, states);
    if d.Dispatch? {
      RefreshLoginThenLookup(uuid, entryData, env, s, s, drawn);
      CleanRoomInvokesOnce(uuid, entryData, env, s, drawn, d.call);
      var refresh := RefreshStep(uuid, entryData, env, s, drawn);
      if refresh.result.Err? {
        assert CountInvokes(PressStep(uuid, entryData, env, s, drawn, states).sent) == 0;
      }
    }
  }

  /** `SCNRCleanButton.async_press` on the button of coordinator `c`. */
  method Press(c: ScnrCoordinator, states: map<string, string>, net: Transport) returns (r: Result<()>)
    modifies c, net
    ensures var st := PressStep(c.uuid, c.entryData, net.env, old(c.State()), old(net.drawn), states);
            r == st.result && c.State() == st.session && net.log == old(net.log) + st.sent && net.drawn == st.drawn
  {
    match Decide(c.deviceId, states)
    case MissingEntity =>
      r := Ok(());
    case Raises(e) =>
      r := Err(e);
    case Dispatch(call) =>
      var reply := c.CleanRoom(call.roomId, call.mode, call.water, call.fan, call.times, net);
      r := if reply.Err? then Err(reply.error) else Ok(());
  }
}
