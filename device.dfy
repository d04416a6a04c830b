/**
 * The MIDI port selection of src/device.rs: a device is chosen by its
 * position among the ports or by a part of its name, and exactly one port
 * must be chosen. The ports and their names come from the MIDI library; here
 * they are parameters.
 */
module Device {
  import opened Results

  /** How the user names a device: by its position among the ports, or by a part of its name. */
  datatype DeviceSelector = Number(n: nat) | NameSubstring(s: string)

  /** Whether the ports are inputs or outputs. */
  datatype Direction = Input | Output

  /** `get_midi_io_direction`: the word used for a direction in messages. */
  function DirectionName(direction: Direction): (s: string)
    ensures s == (if direction.Input? then "input" else "output")
  {
    match direction
    case Input => "input"
    case Output => "output"
  }

  function DigitChar(d: nat): (c: char)
    requires d < 10
    ensures '0' <= c <= '9' && c as int - '0' as int == d
  {
    ('0' as int + d) as char
  }

  /** The decimal digits of `n`, as `{}` formats a `usize`. */
  function Decimal(n: nat): (s: string)
    ensures |s| > 0 && forall i :: 0 <= i < |s| ==> '0' <= s[i] <= '9'
    ensures s[0] == '0' ==> n == 0
    decreases n
  {
    if n < 10 then [DigitChar(n)] else Decimal(n / 10) + [DigitChar(n % 10)]
  }

  /** The number a string of decimal digits stands for. */
  function DecimalValue(s: string): nat
    requires forall i :: 0 <= i < |s| ==> '0' <= s[i] <= '9'
  {
    if s == [] then 0 else DecimalValue(s[..|s| - 1]) * 10 + (s[|s| - 1] as int - '0' as int)
  }

  /** The printed digits read back as the number. */
  lemma {:induction false} DecimalRoundTrip(n: nat)
    ensures DecimalValue(Decimal(n)) == n
    decreases n
  {
    if n >= 10 {
      DecimalRoundTrip(n / 10);
      var s := Decimal(n);
      assert s[..|s| - 1] == Decimal(n / 10);
    }
  }

  /** `Display for DeviceSelector`: a number as its decimal digits, a name part between double quotes. */
  function Display(device: DeviceSelector): (s: string)
    ensures device.Number? ==>
      && |s| > 0 && (forall i :: 0 <= i < |s| ==> '0' <= s[i] <= '9')
      && DecimalValue(s) == device.n
      && (s[0] == '0' ==> device.n == 0)
    ensures device.NameSubstring? ==>
      && |s| == |device.s| + 2 && s[0] == '"' && s[|s| - 1] == '"'
      && s[1..|s| - 1] == device.s
  {
    match device
    case Number(n) =>
      DecimalRoundTrip(n);
      Decimal(n)
    case NameSubstring(data) => "\"" + data + "\""
  }

  /** `sub` occurs in `name` at position `i`. */
  predicate OccursAt(name: string, sub: string, i: nat)
  {
    i + |sub| <= |name| && name[i..i + |sub|] == sub
  }

  /** `str::contains`: `sub` occurs somewhere in `name`. */
  predicate Contains(name: string, sub: string)
  {
    exists i | 0 <= i <= |name| - |sub| :: OccursAt(name, sub, i)
  }

  /** Whether the port at position `i`, named `name`, is one the selector picks. */
  predicate Selects(device: DeviceSelector, i: nat, name: string)
  {
    match device
    case NameSubstring(sub) => Contains(name, sub)
    case Number(n) => i == n
  }

  /**
   * The numbered port names that the selector picks, from position `from`
   * on: every picked port once, with its position and name, in order.
   */
  function Matches<P>(ports: seq<P>, portName: P -> string, device: DeviceSelector, from: nat): (r: seq<(nat, string)>)
    requires from <= |ports|
    ensures forall j :: 0 <= j < |r| ==>
      from <= r[j].0 < |ports| && r[j].1 == portName(ports[r[j].0]) && Selects(device, r[j].0, r[j].1)
    ensures forall i :: from <= i < |ports| && Selects(device, i, portName(ports[i])) ==> (i, portName(ports[i])) in r
    ensures forall j, k :: 0 <= j < k < |r| ==> r[j].0 < r[k].0
    decreases |ports| - from
  {
    if from == |ports| then []
    else
      var rest := Matches(ports, portName, device, from + 1);
      var name := portName(ports[from]);
      if Selects(device, from, name) then [(from, name)] + rest else rest
  }

  /** No port is picked. */
  ghost predicate NoneSelected<P>(ports: seq<P>, portName: P -> string, device: DeviceSelector)
  {
    forall i :: 0 <= i < |ports| ==> !Selects(device, i, portName(ports[i]))
  }

  /** Two different ports are picked. */
  ghost predicate SeveralSelected<P>(ports: seq<P>, portName: P -> string, device: DeviceSelector)
  {
    exists i, j :: 0 <= i < j < |ports| && Selects(device, i, portName(ports[i])) && Selects(device, j, portName(ports[j]))
  }

  /** The picked ports are none exactly when no port is picked, and several exactly when two ports are. */
  lemma MatchesCount<P>(ports: seq<P>, portName: P -> string, device: DeviceSelector)
    ensures |Matches(ports, portName, device, 0)| == 0 <==> NoneSelected(ports, portName, device)
    ensures |Matches(ports, portName, device, 0)| > 1 <==> SeveralSelected(ports, portName, device)
  {
    var r := Matches(ports, portName, device, 0);
    if |r| > 0 {
      assert Selects(device, r[0].0, portName(ports[r[0].0]));
    }
    if |r| > 1 {
      assert Selects(device, r[1].0, portName(ports[r[1].0]));
    }
    if SeveralSelected(ports, portName, device) {
      var i, j :| 0 <= i < j < |ports| && Selects(device, i, portName(ports[i])) && Selects(device, j, portName(ports[j]));
      assert (i, portName(ports[i])) in r && (j, portName(ports[j])) in r;
    }
    if !NoneSelected(ports, portName, device) {
      var i :| 0 <= i < |ports| && Selects(device, i, portName(ports[i]));
      assert (i, portName(ports[i])) in r;
    }
  }

  /**
   * `find_port`: the only port the selector picks; an error naming the
   * direction and the selector when it picks none or more than one.
   */
  function FindPort<P>(ports: seq<P>, portName: P -> string, direction: Direction, device: DeviceSelector): (r: Result<P, string>)
    ensures NoneSelected(ports, portName, device) ==>
      r == Err("No MIDI " + DirectionName(direction) + " port matching " + Display(device))
    ensures SeveralSelected(ports, portName, device) ==>
      r == Err("Multiple MIDI " + DirectionName(direction) + " ports matching " + Display(device))
    ensures r.Ok? <==> !NoneSelected(ports, portName, device) && !SeveralSelected(ports, portName, device)
    ensures r.Ok? ==> exists i :: 0 <= i < |ports| && Selects(device, i, portName(ports[i])) && r.value == ports[i]
  {
    var matches := Matches(ports, portName, device, 0);
    MatchesCount(ports, portName, device);
    if |matches| == 0 then
      Err("No MIDI " + DirectionName(direction) + " port matching " + Display(device))
    else if |matches| > 1 then
      Err("Multiple MIDI " + DirectionName(direction) + " ports matching " + Display(device))
    else
      Ok(ports[matches[0].0])
  }

  /** Selecting by number picks the port at that position, and nothing when the number is past the last port. */
  lemma FindPortByNumber<P>(ports: seq<P>, portName: P -> string, direction: Direction, n: nat)
    ensures n < |ports| ==> FindPort(ports, portName, direction, Number(n)) == Ok(ports[n])
    ensures n >= |ports| ==>
      FindPort(ports, portName, direction, Number(n)) == Err("No MIDI " + DirectionName(direction) + " port matching " + Decimal(n))
  {
    if n < |ports| {
      assert Selects(Number(n), n, portName(ports[n]));
      assert !SeveralSelected(ports, portName, Number(n));
    }
  }

  /** The two ports of the tests' mock, whose ports are their own names. */
  const MockPorts := ["port one (1)", "port two (2)"]

  function MockPortName(p: string): string
  {
    p
  }

  /** `" one "` occurs in the first mock port and not in the second. */
  lemma MockContainsOne()
    ensures Contains(MockPorts[0], " one ") && !Contains(MockPorts[1], " one ")
  {
    assert OccursAt(MockPorts[0], " one ", 4);
    forall i | 0 <= i <= |MockPorts[1]| - 5
      ensures !OccursAt(MockPorts[1], " one ", i)
    {
      assert MockPorts[1][i] != ' ' || MockPorts[1][i + 1] != 'o';
      assert MockPorts[1][i..i + 5][0] == MockPorts[1][i] && MockPorts[1][i..i + 5][1] == MockPorts[1][i + 1];
    }
  }

  /** `find_port_by_substring` */
  lemma FindPortBySubstring()
    ensures FindPort(MockPorts, MockPortName, Output, NameSubstring(" one ")) == Ok("port one (1)")
  {
    MockContainsOne();
    assert !SeveralSelected(MockPorts, MockPortName, NameSubstring(" one "));
  }

  /** The message for an output port matching `" zero "` that is not there. */
  lemma NoZeroMessage()
    ensures "No MIDI " + DirectionName(Output) + " port matching " + Display(NameSubstring(" zero "))
      == "No MIDI output port matching \" zero \""
  {
    assert Display(NameSubstring(" zero ")) == "\" zero \"";
  }

  /** The message for several output ports matching `"port "`. */
  lemma SeveralPortMessage()
    ensures "Multiple MIDI " + DirectionName(Output) + " ports matching " + Display(NameSubstring("port "))
      == "Multiple MIDI output ports matching \"port \""
  {
    assert Display(NameSubstring("port ")) == "\"port \"";
  }

  /** `find_port_by_substring_not_exists` */
  lemma FindPortBySubstringNotExists()
    ensures FindPort(MockPorts, MockPortName, Output, NameSubstring(" zero ")) == Err("No MIDI output port matching \" zero \"")
  {
    forall i | 0 <= i < |MockPorts|
      ensures !Contains(MockPorts[i], " zero ")
    {
      forall k | 0 <= k <= |MockPorts[i]| - 6
        ensures !OccursAt(MockPorts[i], " zero ", k)
      {
        assert MockPorts[i][k + 1] != 'z';
        assert MockPorts[i][k..k + 6][1] == MockPorts[i][k + 1];
      }
    }
    assert NoneSelected(MockPorts, MockPortName, NameSubstring(" zero "));
    NoZeroMessage();
  }

  /** `find_port_by_substring_multiple_matches` */
  lemma FindPortBySubstringMultipleMatches()
    ensures FindPort(MockPorts, MockPortName, Output, NameSubstring("port ")) == Err("Multiple MIDI output ports matching \"port \"")
  {
    assert OccursAt(MockPorts[0], "port ", 0) && OccursAt(MockPorts[1], "port ", 0);
    assert Selects(NameSubstring("port "), 0, MockPortName(MockPorts[0]));
    assert Selects(NameSubstring("port "), 1, MockPortName(MockPorts[1]));
    assert SeveralSelected(MockPorts, MockPortName, NameSubstring("port "));
    SeveralPortMessage();
  }

  /** `find_port_by_number` */
  lemma FindPortByNumberZero()
    ensures FindPort(MockPorts, MockPortName, Output, Number(0)) == Ok("port one (1)")
  {
    FindPortByNumber(MockPorts, MockPortName, Output, 0);
  }

  /** `format_device_selector_number` and `format_device_selector_name_substring` */
  lemma FormatDeviceSelector()
    ensures Display(Number(42)) == "42"
    ensures Display(NameSubstring(" foo ")) == "\" foo \""
  {
    assert Decimal(4) == "4";
  }
}
