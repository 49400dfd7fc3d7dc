/** Backend-name resolution of get_backend: which kind of backend a name asks for, the class name
    of the fake device it copies, and the error levels of the synthetic noise model. Provider
    access and the construction of simulators and noise models are not modelled: a resolution
    ends in a Route that names what would be built. */
module Accounts {
  import opened Failures
  import opened PyStrings

  /** What get_backend hands the name (or the part of it that it extracts) to. */
  datatype Route =
    | AerFromDevice(className: string)  // QasmSimulator.from_backend of qiskit.test.mock.<className>
    | AerFromModel(name: string)        // _get_aer_from_model(name)
    | AerStatevector                    // Aer's statevector_simulator
    | ProviderLookup(name: string)      // the first provider backend with this name; with no name, the first of all

  /** The mock-device class of _get_aer_from_device: "Fake", the first character upper-cased,
      the rest as given; an empty device name fails on name[0]. */
  function FakeClassName(device: string): (r: Result<string>)
    ensures r.Failure? <==> device == []
    ensures r.Failure? ==> r.error == IndexError
    ensures r.Success? ==> |r.value| == |device| + 4 && r.value[..4] == "Fake" && r.value[5..] == device[1..]
    ensures r.Success? ==> r.value[4] == UpperChar(device[0])
  {
    if device == [] then Failure(IndexError) else Success("Fake" + [UpperChar(device[0])] + device[1..])
  }

  /** Two device names give the same class exactly when they agree after the first character and
      their first characters agree once upper-cased: "montreal" and "Montreal" are one device. */
  lemma FakeClassNameSame(a: string, b: string)
    requires a != [] && b != []
    ensures FakeClassName(a) == FakeClassName(b) <==> UpperChar(a[0]) == UpperChar(b[0]) && a[1..] == b[1..]
  {
    if FakeClassName(a) == FakeClassName(b) {
      assert FakeClassName(a).value[4] == FakeClassName(b).value[4];
      assert FakeClassName(a).value[5..] == FakeClassName(b).value[5..];
    }
  }

  function DeviceRoute(device: string): Result<Route> {
    var c :- FakeClassName(device);
    Success(AerFromDevice(c))
  }

  /** get_backend's prefix dispatch, first match winning: fake_, fake(, qasm_simulator(fake_
      (these three compared case-insensitively, the device name cut out with its case kept),
      then the prefix sim in any case, then statevector_simulator or vec in any case, and
      otherwise a provider lookup of the name. */
  function GetBackend(name: string): Result<Route> {
    if Lower(Slice(name, 0, 5)) == "fake_" then DeviceRoute(Slice(name, 5, |name|))
    else if Lower(Slice(name, 0, 5)) == "fake(" then DeviceRoute(Slice(name, 5, -1))
    else if Lower(Slice(name, 0, 20)) == "qasm_simulator(fake_" then DeviceRoute(Slice(name, 20, -1))
    else if Lower(Slice(name, 0, 3)) == "sim" then Success(AerFromModel(name))
    else if Lower(name) == "statevector_simulator" || Lower(name) == "vec" then Success(AerStatevector)
    else Success(ProviderLookup(name))
  }

  lemma LowerPrefix(p: string, d: string, n: nat)
    requires n <= |p|
    ensures Lower(Slice(p + d, 0, n)) == Lower(p[..n])
  {
    assert Slice(p + d, 0, n) == p[..n];
  }

  /** Any spelling of fake_ followed by a device name routes to that device, its case kept. */
  lemma FakeUnderscoreRoutes(p: string, d: string)
    requires |p| == 5 && Lower(p) == "fake_"
    ensures GetBackend(p + d) == DeviceRoute(d)
  {
    LowerPrefix(p, d, 5);
    assert p[..5] == p;
    assert Slice(p + d, 5, |p + d|) == d;
  }

  /** fake(<device>) routes to the device; the last character is dropped whatever it is. */
  lemma FakeParenRoutes(p: string, d: string, last: char)
    requires |p| == 5 && Lower(p) == "fake("
    ensures GetBackend(p + d + [last]) == DeviceRoute(d)
  {
    var name := p + d + [last];
    assert name == p + (d + [last]);
    LowerPrefix(p, d + [last], 5);
    assert p[..5] == p;
    assert Lower(Slice(name, 0, 5)) != "fake_" by {
      assert Lower(Slice(name, 0, 5))[4] == '(';
    }
    assert Slice(name, 5, -1) == d;
  }

  /** qasm_simulator(fake_<device>) routes to the device. */
  lemma QasmFakeRoutes(p: string, d: string, last: char)
    requires |p| == 20 && Lower(p) == "qasm_simulator(fake_"
    ensures GetBackend(p + d + [last]) == DeviceRoute(d)
  {
    var name := p + d + [last];
    assert name == p + (d + [last]);
    LowerPrefix(p, d + [last], 20);
    LowerPrefix(p, d + [last], 5);
    assert p[..20] == p;
    assert Lower(p[..5])[0] == Lower(p)[0] == 'q';
    assert Slice(name, 20, -1) == d;
  }

  /** Every name starting with sim in any case, "Simulator" included, asks for the noise model,
      and the whole name is passed on. */
  lemma SimRoutesToModel(p: string, rest: string)
    requires |p| == 3 && Lower(p) == "sim"
    ensures GetBackend(p + rest) == Success(AerFromModel(p + rest))
  {
    var name := p + rest;
    LowerPrefix(p, rest, 3);
    assert p[..3] == p;
    assert Lower(Slice(name, 0, 5)) != "fake_" && Lower(Slice(name, 0, 5)) != "fake(" by {
      assert Slice(name, 0, 5)[0] == p[0];
      assert Lower(Slice(name, 0, 5))[0] == Lower(p)[0] == 's';
    }
    assert Lower(Slice(name, 0, 20)) != "qasm_simulator(fake_" by {
      assert Slice(name, 0, 20)[0] == p[0];
      assert Lower(Slice(name, 0, 20))[0] == Lower(p)[0] == 's';
    }
  }

  /** The statevector names are matched in any case here. */
  lemma StatevectorAnyCase(name: string)
    requires Lower(name) == "statevector_simulator" || Lower(name) == "vec"
    ensures GetBackend(name) == Success(AerStatevector)
  {
    assert Slice(name, 0, 3) == name[..3];
    assert Lower(Slice(name, 0, 3))[1] == Lower(name)[1];
    assert Lower(Slice(name, 0, 5))[0] == Lower(name)[0];
    assert Lower(Slice(name, 0, 20))[0] == Lower(name)[0];
  }

  /** Examples: the device name keeps its case. */
  lemma FakeUnderscoreExample()
    ensures GetBackend("FAKE_montreal") == Success(AerFromDevice("FakeMontreal"))
  {
    var p, d := "FAKE_", "montreal";
    assert Lower(p) == "fake_" by {
      assert forall i :: 0 <= i < 5 ==> Lower(p)[i] == "fake_"[i];
    }
    FakeUnderscoreRoutes(p, d);
    assert p + d == "FAKE_montreal";
    assert FakeClassName(d) == Success("FakeMontreal") by {
      assert "Fake" + [UpperChar('m')] + "ontreal" == "FakeMontreal";
    }
  }

  lemma FakeParenExample()
    ensures GetBackend("fake(mUmbai)") == Success(AerFromDevice("FakeMUmbai"))
  {
    FakeParenRoutes("fake(", "mUmbai", ')');
    assert "fake(" + "mUmbai" + [')'] == "fake(mUmbai)";
    assert "Fake" + [UpperChar('m')] + "Umbai" == "FakeMUmbai";
  }

  lemma QasmFakeExample()
    ensures GetBackend("qasm_simulator(fake_lima)") == Success(AerFromDevice("FakeLima"))
  {
    var p, d := "qasm_simulator(fake_", "lima";
    assert Lower(p) == p by {
      assert forall i :: 0 <= i < |p| ==> Lower(p)[i] == p[i];
    }
    QasmFakeRoutes(p, d, ')');
    assert p + d + [')'] == "qasm_simulator(fake_lima)";
    assert FakeClassName(d) == Success("FakeLima") by {
      assert "Fake" + [UpperChar('l')] + "ima" == "FakeLima";
    }
  }

  lemma EmptyDeviceFails()
    ensures GetBackend("fake_") == Failure(IndexError) && GetBackend("fake()") == Failure(IndexError)
  {
    FakeUnderscoreRoutes("fake_", "");
    assert "fake_" + "" == "fake_";
    FakeParenRoutes("fake(", "", ')');
    assert "fake(" + "" + [')'] == "fake()";
  }

  /** A name no prefix claims is looked up unchanged. The empty name is passed on too; the
      provider query then applies no name filter and takes the first backend of any name. */
  lemma ProviderExamples()
    ensures GetBackend("ibmq_montreal") == Success(ProviderLookup("ibmq_montreal"))
    ensures GetBackend("") == Success(ProviderLookup(""))
  {
    assert Lower(Slice("ibmq_montreal", 0, 5))[0] == 'i';
    assert Lower(Slice("ibmq_montreal", 0, 3))[0] == 'i';
    assert Lower(Slice("ibmq_montreal", 0, 20))[0] == 'i';
    assert Lower("ibmq_montreal")[0] == 'i';
  }

  /** The error channels of the synthetic noise model. */
  datatype Channel = OneQubitGate | TwoQubitGate | Readout10 | Readout01

  /** What _get_aer_from_model settles before building the noise model: the simulator's
      custom_name, the level and the four error probabilities, the channels that were capped and
      whether the warning is issued. */
  datatype NoiseSettings = NoiseSettings(
    name: string, level: real,
    p1: real, p2: real, p01: real, p10: real,
    limited: set<Channel>, warned: bool)

  function Mark(c: Channel, capped: bool): set<Channel> {
    if capped then {c} else {}
  }

  /** The clamp table with the cap of the two-qubit channel as a parameter. `parsed` is what
      float(name[3:]) gives, None when it raises ValueError. */
  function ClampTable(name: string, parsed: Option<real>, twoQubitCap: real): Result<NoiseSettings> {
    var level := if parsed.Some? then parsed.value else 0.0;
    var customName := if parsed.Some? then name else "sim0";
    var p1, p2, p01, p10 := 0.001 * level, 0.01 * level, 0.03 * level, 0.015 * level;
    if level < 0.0 then Failure(ValueError)
    else
      var limited := Mark(OneQubitGate, p1 > 1.0) + Mark(TwoQubitGate, p2 > 1.0) +
        Mark(Readout10, p10 > 0.5) + Mark(Readout01, p01 > 0.5);
      Success(NoiseSettings(customName, level,
        if p1 > 1.0 then 1.0 else p1, if p2 > 1.0 then twoQubitCap else p2,
        if p01 > 0.5 then 0.5 else p01, if p10 > 0.5 then 0.5 else p10,
        limited, limited != {}))
  }

  /** The table as the source writes it: an over-large two-qubit error becomes 2. */
  function NoiseAsWritten(name: string, parsed: Option<real>): Result<NoiseSettings> {
    ClampTable(name, parsed, 2.0)
  }

  /** The table with every channel capped at a probability: the two-qubit error becomes 1. */
  function NoiseIntended(name: string, parsed: Option<real>): Result<NoiseSettings> {
    ClampTable(name, parsed, 1.0)
  }

  /** One `if p > bound: limited.add(c); p = to` step of the clamp. */
  method CapChannel(p: real, bound: real, to: real, c: Channel, limited: set<Channel>)
    returns (capped: real, limited': set<Channel>)
    ensures capped == (if p > bound then to else p)
    ensures limited' == limited + Mark(c, p > bound)
  {
    capped, limited' := p, limited;
    if p > bound {
      limited' := limited + {c};
      capped := to;
    }
  }

  /** _get_aer_from_model up to the noise model: the level (0 and the name "sim0" when it does
      not parse), ValueError for a negative level, then each channel capped in turn. */
  method ModelNoise(name: string, parsed: Option<real>) returns (r: Result<NoiseSettings>)
    ensures r == NoiseAsWritten(name, parsed)
  {
    var level, customName := 0.0, "sim0";
    if parsed.Some? {
      level, customName := parsed.value, name;
    }
    var p1 := 0.001 * level;
    var p2 := 0.01 * level;
    var p01 := 0.03 * level;
    var p10 := 0.015 * level;
    var limited: set<Channel> := {};
    if level < 0.0 {
      return Failure(ValueError);
    }
    p1, limited := CapChannel(p1, 1.0, 1.0, OneQubitGate, limited);
    p2, limited := CapChannel(p2, 1.0, 2.0, TwoQubitGate, limited);
    p10, limited := CapChannel(p10, 0.5, 0.5, Readout10, limited);
    p01, limited := CapChannel(p01, 0.5, 0.5, Readout01, limited);
    assert limited == Mark(OneQubitGate, 0.001 * level > 1.0) + Mark(TwoQubitGate, 0.01 * level > 1.0) +
      Mark(Readout10, 0.015 * level > 0.5) + Mark(Readout01, 0.03 * level > 0.5);
    r := Success(NoiseSettings(customName, level, p1, p2, p01, p10, limited, limited != {}));
  }

  /** A negative level is the only error; an unparsable level is level 0 named "sim0" with
      nothing capped. */
  lemma ClampErrors(name: string, parsed: Option<real>, cap: real)
    ensures ClampTable(name, parsed, cap).Failure? <==> parsed.Some? && parsed.value < 0.0
    ensures ClampTable(name, parsed, cap).Failure? ==> ClampTable(name, parsed, cap).error == ValueError
    ensures parsed.None? ==>
      ClampTable(name, parsed, cap) == Success(NoiseSettings("sim0", 0.0, 0.0, 0.0, 0.0, 0.0, {}, false))
    ensures parsed.Some? && parsed.value >= 0.0 ==> ClampTable(name, parsed, cap).value.name == name
  {
  }

  /** Which channels are capped, by level: one-qubit above 1000, two-qubit above 100, readout
      1->0 above 100/3, readout 0->1 above 50/3; the warning is issued iff any is capped. A
      channel not capped keeps its exact product, a capped readout channel is 1/2 and a capped
      one-qubit channel is 1. */
  lemma ClampThresholds(name: string, level: real, cap: real)
    requires level >= 0.0
    ensures var s := ClampTable(name, Some(level), cap).value;
      (OneQubitGate in s.limited <==> level > 1000.0) &&
      (TwoQubitGate in s.limited <==> level > 100.0) &&
      (Readout10 in s.limited <==> 3.0 * level > 100.0) &&
      (Readout01 in s.limited <==> 3.0 * level > 50.0) &&
      (s.warned <==> s.limited != {}) &&
      s.p1 == (if OneQubitGate in s.limited then 1.0 else 0.001 * level) &&
      s.p2 == (if TwoQubitGate in s.limited then cap else 0.01 * level) &&
      s.p10 == (if Readout10 in s.limited then 0.5 else 0.015 * level) &&
      s.p01 == (if Readout01 in s.limited then 0.5 else 0.03 * level)
  {
  }

  /** A higher level caps at least the channels a lower one caps. */
  lemma LimitedMonotone(name: string, lo: real, hi: real, cap: real)
    requires 0.0 <= lo <= hi
    ensures ClampTable(name, Some(lo), cap).value.limited <= ClampTable(name, Some(hi), cap).value.limited
  {
    ClampThresholds(name, lo, cap);
    ClampThresholds(name, hi, cap);
  }

  /** sim10 caps nothing: its errors are 0.01, 0.1, 0.3 and 0.15, and no warning is issued. */
  lemma Sim10ClampsNothing()
    ensures NoiseAsWritten("sim10", Some(10.0)) ==
      Success(NoiseSettings("sim10", 10.0, 0.01, 0.1, 0.3, 0.15, {}, false))
  {
  }

  /** As written, level 150 turns the two-qubit error 1.5 into 2, which is no probability. */
  lemma AsWrittenTwoQubitExceedsOne()
    ensures NoiseAsWritten("sim150", Some(150.0)).Success?
    ensures NoiseAsWritten("sim150", Some(150.0)).value.p2 == 2.0
    ensures TwoQubitGate in NoiseAsWritten("sim150", Some(150.0)).value.limited
  {
  }

  /** With the intended cap every error probability lies in [0, 1], the readout ones in
      [0, 1/2], at every level that does not raise. */
  lemma IntendedProbabilitiesBounded(name: string, parsed: Option<real>)
    requires NoiseIntended(name, parsed).Success?
    ensures var s := NoiseIntended(name, parsed).value;
      0.0 <= s.p1 <= 1.0 && 0.0 <= s.p2 <= 1.0 && 0.0 <= s.p01 <= 0.5 && 0.0 <= s.p10 <= 0.5
  {
  }
}
