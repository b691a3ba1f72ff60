/** A complete press against a fixed vendor: the login grants "T1", the device
    list holds a hub and then the robot, and the settings ask for room
    "ROOM_003" in mode "sweep_mop" with water 2, fan 4, once. */
module Scenario {
  import opened Python
  import opened Http
  import opened Coordinator
  import opened Button

  const RobotMac := JStr("B0E9FE000002")

  const LoginReply := Body(JObj(map["body" := JObj(map["access_token" := JStr("T1")])]))

  const DeviceListReply :=
    Body(JObj(map["body" := JObj(map["Items" := JArr([
      JObj(map["device_name" := JStr("Hub Mini"), "device_mac" := JStr("B0E9FE000001")]),
      JObj(map["device_name" := JStr("Floor Cleaning Robot S10 Pro"), "device_mac" := RobotMac])])])]))

  /** The vendor answers each endpoint with its fixed reply. */
  function Vendor(req: Request): Reply
  {
    if req.url == LoginUrl then LoginReply
    else if req.url == DeviceListUrl then DeviceListReply
    else Body(JObj(map["statusCode" := JInt(100)]))
  }

  function RequestIds(n: nat): string
  {
    "request-" + IntToDecimal(n)
  }

  /** The robot is the second device: the first is passed over, the second
      matches because its name contains the model fragment. */
  lemma ScenarioDevice()
    ensures DeviceOf(DeviceListReply) == Ok(Some(RobotMac))
  {
    var entries := DeviceListReply.data.fields["body"].fields["Items"].items;
    assert !HasSubstring("Hub Mini", "Floor Cleaning Robot S10");
    assert "Floor Cleaning Robot S10 Pro"[..|"Floor Cleaning Robot S10"|] == "Floor Cleaning Robot S10";
    assert Passes(entries[0]) && Matches(entries[1]);
    SelectDeviceFirstMatch(entries, 1);
  }

  const Chosen := CleanCall("ROOM_003", "sweep_mop", 2, 4, 1)

  /** The chosen settings, held under the button's keys; the numeric ones are
      float text. */
  const ChosenStates := SettingsStates(RobotMac, "ROOM_003", "sweep_mop", "2.0", "4.0", "1.0")

  lemma ScenarioDecision()
    ensures Decide(RobotMac, ChosenStates) == Dispatch(Chosen)
  {
    assert IntToDecimal(2) + ".0" == "2.0" by { assert IntToDecimal(2) == "2"; }
    assert IntToDecimal(4) + ".0" == "4.0" by { assert IntToDecimal(4) == "4"; }
    assert IntToDecimal(1) + ".0" == "1.0" by { assert IntToDecimal(1) == "1"; }
    DecideForwardsSettings(RobotMac, "ROOM_003", "sweep_mop", 2, 4, 1);
  }

  /** The refresh logs in, obtains "T1", and finds the robot again. */
  lemma ScenarioRefresh(uuid: string, entryData: map<string, string>)
    requires "username" in entryData && "password" in entryData
    ensures var login := LoginRequest(uuid, entryData, RequestIds(0));
            && login.Ok?
            && RefreshStep(uuid, entryData, Env(Vendor, RequestIds), Session(JStr("T0"), RobotMac), 0)
               == Step(Ok(JObj(map[])), Session(JStr("T1"), RobotMac),
                       [login.value, DeviceListRequest(JStr("T1"), uuid, RequestIds(1))], 2)
  {
    var env := Env(Vendor, RequestIds);
    var s0 := Session(JStr("T0"), RobotMac);
    var login := LoginRequest(uuid, entryData, RequestIds(0)).value;
    assert login.url == LoginUrl;
    assert TokenOf(env.respond(login)) == Ok(JStr("T1"));
    var s1 := Session(JStr("T1"), RobotMac);
    assert LoginStep(uuid, entryData, env, s0, 0) == Step(Ok(()), s1, [login], 1);

    var list := DeviceListRequest(JStr("T1"), uuid, RequestIds(1));
    assert list.url != LoginUrl by { assert |DeviceListUrl| != |LoginUrl|; }
    ScenarioDevice();
    assert DeviceStep(uuid, env, s1, 1) == Step(Ok(()), s1, [list], 2);
    assert [login] + [list] == [login, list];
  }

  /** The clean cycle behind the press: login, device list and the command,
      which the vendor answers. */
  lemma ScenarioCycle(uuid: string, entryData: map<string, string>)
    requires "username" in entryData && "password" in entryData
    ensures var st := CleanRoomStep(uuid, entryData, Env(Vendor, RequestIds), Session(JStr("T0"), RobotMac), 0,
                                    Chosen);
            && st.result.Ok?
            && |st.sent| == 3
            && CountInvokes(st.sent) == 1
            && st.session == Session(JStr("T1"), RobotMac)
            && st.sent[2] == InvokeRequest(JStr("T1"), uuid, RequestIds(2), RobotMac, Chosen)
  {
    var env := Env(Vendor, RequestIds);
    var s0 := Session(JStr("T0"), RobotMac);
    ScenarioRefresh(uuid, entryData);
    var refresh := RefreshStep(uuid, entryData, env, s0, 0);
    var command := InvokeRequest(JStr("T1"), uuid, RequestIds(2), RobotMac, Chosen);
    var cycle := CleanRoomStep(uuid, entryData, env, s0, 0, Chosen);
    assert cycle.sent == refresh.sent + [command] && |refresh.sent| == 2;
    CleanRoomInvokesOnce(uuid, entryData, env, s0, 0, Chosen);
  }

  /** One press sends login, device list and exactly one command, addressed to
      the robot with the fresh token and the chosen settings. */
  lemma ScenarioPress(uuid: string, entryData: map<string, string>)
    requires "username" in entryData && "password" in entryData
    ensures var st := PressStep(uuid, entryData, Env(Vendor, RequestIds), Session(JStr("T0"), RobotMac), 0,
                                ChosenStates);
            && st.result == Ok(())
            && |st.sent| == 3
            && CountInvokes(st.sent) == 1
            && st.session == Session(JStr("T1"), RobotMac)
            && st.sent[2] == InvokeRequest(JStr("T1"), uuid, RequestIds(2), RobotMac, Chosen)
  {
    ScenarioDecision();
    ScenarioCycle(uuid, entryData);
    PressIsCleanCycle(uuid, entryData, Env(Vendor, RequestIds), Session(JStr("T0"), RobotMac), 0, ChosenStates,
                      Chosen);
  }
}
