/** `GattHelpers`: the diagnostic strings "N [NAME]" for a connection state
    and for a GATT status code. */
module GattHelpers {

  /** Java's `int`. */
  newtype int32 = x: int | -0x8000_0000 <= x < 0x8000_0000

  // Connection states (BluetoothGatt / BluetoothProfile)
  const STATE_DISCONNECTED: int32 := 0
  const STATE_CONNECTING: int32 := 1
  const STATE_CONNECTED: int32 := 2
  const STATE_DISCONNECTING: int32 := 3

  // GATT status codes (BluetoothGatt)
  const GATT_SUCCESS: int32 := 0
  const GATT_READ_NOT_PERMITTED: int32 := 2
  const GATT_WRITE_NOT_PERMITTED: int32 := 3
  const GATT_INSUFFICIENT_AUTHENTICATION: int32 := 5
  const GATT_REQUEST_NOT_SUPPORTED: int32 := 6
  const GATT_INVALID_OFFSET: int32 := 7
  const GATT_INVALID_ATTRIBUTE_LENGTH: int32 := 13
  const GATT_INSUFFICIENT_ENCRYPTION: int32 := 15
  const GATT_CONNECTION_CONGESTED: int32 := 143
  const GATT_FAILURE: int32 := 257

  // ---------------------------------------------------------------------------
  // Decimal rendering, as Java's string concatenation `state + " ["` does it

  predicate IsDigit(c: char) { '0' <= c <= '9' }

  function DigitChar(d: nat): (c: char)
    requires d < 10
    ensures IsDigit(c) && (c as int) - ('0' as int) == d
  {
    (('0' as int) + d) as char
  }

  /** The decimal digits of `n`, without leading zeros. */
  function NaturalToDecimal(n: nat): (s: string)
    ensures |s| > 0
    ensures forall i :: 0 <= i < |s| ==> IsDigit(s[i])
  {
    if n < 10 then [DigitChar(n)] else NaturalToDecimal(n / 10) + [DigitChar(n % 10)]
  }

  /** `Integer.toString(n)`: a minus sign for negative numbers, then the digits. */
  function IntToDecimal(n: int): (s: string)
    ensures |s| > 0
    ensures forall i :: 0 <= i < |s| ==> s[i] != ' '
  {
    if n < 0 then "-" + NaturalToDecimal(-n) else NaturalToDecimal(n)
  }

  /** The value of a string of decimal digits (the reference inverse). */
  function ParseNatural(s: string): nat
    requires forall i :: 0 <= i < |s| ==> IsDigit(s[i])
  {
    if s == [] then 0
    else
      var last := s[|s| - 1];
      assert IsDigit(last);
      ParseNatural(s[..|s| - 1]) * 10 + ((last as int) - ('0' as int))
  }

  function ParseDecimal(s: string): int
    requires |s| > 0
    requires s[0] == '-' ==> forall i :: 1 <= i < |s| ==> IsDigit(s[i])
    requires s[0] != '-' ==> forall i :: 0 <= i < |s| ==> IsDigit(s[i])
  {
    if s[0] == '-' then 0 - ParseNatural(s[1..]) as int else ParseNatural(s)
  }

  lemma {:induction false} ParseNaturalToDecimal(n: nat)
    ensures ParseNatural(NaturalToDecimal(n)) == n
  {
    var s := NaturalToDecimal(n);
    if n >= 10 {
      assert s[..|s| - 1] == NaturalToDecimal(n / 10);
      ParseNaturalToDecimal(n / 10);
    } else {
      assert s[..|s| - 1] == [];
    }
  }

  /** Parsing the rendering of any integer gives that integer back. */
  lemma DecimalRoundTrip(n: int)
    ensures var s := IntToDecimal(n);
            (s[0] == '-' ==> forall i :: 1 <= i < |s| ==> IsDigit(s[i])) &&
            (s[0] != '-' ==> forall i :: 0 <= i < |s| ==> IsDigit(s[i])) &&
            ParseDecimal(s) == n
  {
    var s := IntToDecimal(n);
    if n < 0 {
      assert s[1..] == NaturalToDecimal(-n);
      ParseNaturalToDecimal(-n);
    } else {
      ParseNaturalToDecimal(n);
    }
  }

  /** The part of `s` before its first space (all of `s` if it has none). */
  function BeforeSpace(s: string): (r: string)
    ensures |r| <= |s| && r == s[..|r|]
    ensures forall i :: 0 <= i < |r| ==> r[i] != ' '
  {
    if s == [] || s[0] == ' ' then [] else [s[0]] + BeforeSpace(s[1..])
  }

  lemma {:induction false} BeforeSpaceOfJoin(a: string, rest: string)
    requires forall i :: 0 <= i < |a| ==> a[i] != ' '
    ensures BeforeSpace(a + " " + rest) == a
  {
    if a != [] {
      assert (a + " " + rest)[1..] == a[1..] + " " + rest;
      BeforeSpaceOfJoin(a[1..], rest);
    }
  }

  // ---------------------------------------------------------------------------
  // The two formatters

  function ConnectionStateName(state: int32): (name: string)
    ensures name == "UNKNOWN" <==> !(STATE_DISCONNECTED <= state <= STATE_DISCONNECTING)
    ensures state == STATE_DISCONNECTED ==> name == "DISCONNECTED"
    ensures state == STATE_CONNECTING ==> name == "CONNECTING"
    ensures state == STATE_CONNECTED ==> name == "CONNECTED"
    ensures state == STATE_DISCONNECTING ==> name == "DISCONNECTING"
  {
    if state == STATE_CONNECTED then "CONNECTED"
    else if state == STATE_CONNECTING then "CONNECTING"
    else if state == STATE_DISCONNECTED then "DISCONNECTED"
    else if state == STATE_DISCONNECTING then "DISCONNECTING"
    else "UNKNOWN"
  }

  /** `connectionStateToString`: the decimal of `state`, " [", its name, "]". */
  function ConnectionStateToString(state: int32): (r: string)
    ensures |r| == |IntToDecimal(state as int)| + |ConnectionStateName(state)| + 3
  {
    IntToDecimal(state as int) + " [" + ConnectionStateName(state) + "]"
  }

  function GattStatusName(status: int32): (name: string)
    ensures name == "UNKNOWN" <==>
      status !in {GATT_SUCCESS, GATT_READ_NOT_PERMITTED, GATT_WRITE_NOT_PERMITTED,
                  GATT_INSUFFICIENT_AUTHENTICATION, GATT_REQUEST_NOT_SUPPORTED, GATT_INVALID_OFFSET,
                  GATT_INVALID_ATTRIBUTE_LENGTH, GATT_INSUFFICIENT_ENCRYPTION,
                  GATT_CONNECTION_CONGESTED, GATT_FAILURE}
    ensures status == GATT_SUCCESS ==> name == "SUCCESS"
    ensures status == GATT_READ_NOT_PERMITTED ==> name == "READ_NOT_PERMITTED"
    ensures status == GATT_WRITE_NOT_PERMITTED ==> name == "WRITE_NOT_PERMITTED"
    ensures status == GATT_INSUFFICIENT_AUTHENTICATION ==> name == "INSUFFICIENT_AUTHENTICATION"
    ensures status == GATT_REQUEST_NOT_SUPPORTED ==> name == "REQUEST_NOT_SUPPORTED"
    ensures status == GATT_INVALID_OFFSET ==> name == "INVALID_OFFSET"
    ensures status == GATT_INVALID_ATTRIBUTE_LENGTH ==> name == "INVALID_ATTRIBUTE_LENGTH"
    ensures status == GATT_INSUFFICIENT_ENCRYPTION ==> name == "INSUFFICIENT_ENCRYPTION"
    ensures status == GATT_CONNECTION_CONGESTED ==> name == "CONNECTION_CONGESTED"
    ensures status == GATT_FAILURE ==> name == "FAILURE"
  {
    if status == GATT_CONNECTION_CONGESTED then "CONNECTION_CONGESTED"
    else if status == GATT_FAILURE then "FAILURE"
    else if status == GATT_INSUFFICIENT_AUTHENTICATION then "INSUFFICIENT_AUTHENTICATION"
    else if status == GATT_INSUFFICIENT_ENCRYPTION then "INSUFFICIENT_ENCRYPTION"
    else if status == GATT_INVALID_ATTRIBUTE_LENGTH then "INVALID_ATTRIBUTE_LENGTH"
    else if status == GATT_INVALID_OFFSET then "INVALID_OFFSET"
    else if status == GATT_READ_NOT_PERMITTED then "READ_NOT_PERMITTED"
    else if status == GATT_REQUEST_NOT_SUPPORTED then "REQUEST_NOT_SUPPORTED"
    else if status == GATT_SUCCESS then "SUCCESS"
    else if status == GATT_WRITE_NOT_PERMITTED then "WRITE_NOT_PERMITTED"
    else "UNKNOWN"
  }

  /** `gattStatusToString`: the decimal of `status`, " [", its name, "]". */
  function GattStatusToString(status: int32): (r: string)
    ensures |r| == |IntToDecimal(status as int)| + |GattStatusName(status)| + 3
  {
    IntToDecimal(status as int) + " [" + GattStatusName(status) + "]"
  }

  // ---------------------------------------------------------------------------
  // What the formatters promise

  /** For any name, the text before the first space of "<decimal of n> [<name>]"
      is the decimal of `n`, made of digits after an optional minus sign, and
      it parses back to `n`. */
  lemma LeadsWithDecimal(n: int, name: string)
    ensures var d := BeforeSpace(IntToDecimal(n) + " [" + name + "]");
            d == IntToDecimal(n) && |d| > 0 &&
            (d[0] == '-' ==> forall i :: 1 <= i < |d| ==> IsDigit(d[i])) &&
            (d[0] != '-' ==> forall i :: 0 <= i < |d| ==> IsDigit(d[i])) &&
            ParseDecimal(d) == n
  {
    assert IntToDecimal(n) + " [" + name + "]" == IntToDecimal(n) + " " + ("[" + name + "]");
    BeforeSpaceOfJoin(IntToDecimal(n), "[" + name + "]");
    DecimalRoundTrip(n);
  }

  /** The text before the first space of a formatted state parses back to the
      state: the string always starts with the exact decimal of its input. */
  lemma ConnectionStateToStringLeadsWithDecimal(state: int32)
    ensures var d := BeforeSpace(ConnectionStateToString(state));
            d == IntToDecimal(state as int) && |d| > 0 &&
            (d[0] == '-' ==> forall i :: 1 <= i < |d| ==> IsDigit(d[i])) &&
            (d[0] != '-' ==> forall i :: 0 <= i < |d| ==> IsDigit(d[i])) &&
            ParseDecimal(d) == state as int
  {
    LeadsWithDecimal(state as int, ConnectionStateName(state));
  }

  lemma GattStatusToStringLeadsWithDecimal(status: int32)
    ensures var d := BeforeSpace(GattStatusToString(status));
            d == IntToDecimal(status as int) && |d| > 0 &&
            (d[0] == '-' ==> forall i :: 1 <= i < |d| ==> IsDigit(d[i])) &&
            (d[0] != '-' ==> forall i :: 0 <= i < |d| ==> IsDigit(d[i])) &&
            ParseDecimal(d) == status as int
  {
    LeadsWithDecimal(status as int, GattStatusName(status));
  }

  /** Distinct states give distinct strings. */
  lemma ConnectionStateToStringInjective(a: int32, b: int32)
    ensures ConnectionStateToString(a) == ConnectionStateToString(b) ==> a == b
  {
    ConnectionStateToStringLeadsWithDecimal(a);
    ConnectionStateToStringLeadsWithDecimal(b);
  }

  /** Distinct statuses give distinct strings. */
  lemma GattStatusToStringInjective(a: int32, b: int32)
    ensures GattStatusToString(a) == GattStatusToString(b) ==> a == b
  {
    GattStatusToStringLeadsWithDecimal(a);
    GattStatusToStringLeadsWithDecimal(b);
  }

  /** Nothing but the leading decimal comes before the state's bracketed
      name: the string is its text before the first space, one space, and
      the name in brackets. */
  lemma ConnectionStateToStringEndsWithName(state: int32)
    ensures var r := ConnectionStateToString(state);
            var name := ConnectionStateName(state);
            && r[|r| - |name| - 3..] == " [" + name + "]"
            && r == BeforeSpace(r) + " [" + name + "]"
  {
    ConnectionStateToStringLeadsWithDecimal(state);
  }

  /** The same for a GATT status and its name. */
  lemma GattStatusToStringEndsWithName(status: int32)
    ensures var r := GattStatusToString(status);
            var name := GattStatusName(status);
            && r[|r| - |name| - 3..] == " [" + name + "]"
            && r == BeforeSpace(r) + " [" + name + "]"
  {
    GattStatusToStringLeadsWithDecimal(status);
  }

  /** Concrete renderings of the four known states and of an unknown one. */
  lemma ConnectionStateExamples()
    ensures ConnectionStateToString(STATE_DISCONNECTED) == "0 [DISCONNECTED]"
    ensures ConnectionStateToString(STATE_CONNECTING) == "1 [CONNECTING]"
    ensures ConnectionStateToString(STATE_CONNECTED) == "2 [CONNECTED]"
    ensures ConnectionStateToString(STATE_DISCONNECTING) == "3 [DISCONNECTING]"
    ensures ConnectionStateToString(-1) == "-1 [UNKNOWN]"
  {
    assert IntToDecimal(0) == "0" && IntToDecimal(1) == "1" && IntToDecimal(2) == "2";
    assert IntToDecimal(3) == "3" && IntToDecimal(-1) == "-1";
  }

  /** The four status renderings below, spelled out piece by piece. */
  lemma StatusTextLiterals()
    ensures "0" + " [" + "SUCCESS" + "]" == "0 [SUCCESS]"
    ensures "13" + " [" + "INVALID_ATTRIBUTE_LENGTH" + "]" == "13 [INVALID_ATTRIBUTE_LENGTH]"
    ensures "257" + " [" + "FAILURE" + "]" == "257 [FAILURE]"
    ensures "1" + " [" + "UNKNOWN" + "]" == "1 [UNKNOWN]"
  {
  }

  /** Concrete renderings of some known statuses and of an unknown one. */
  lemma GattStatusExamples()
    ensures GattStatusToString(GATT_SUCCESS) == "0 [SUCCESS]"
    ensures GattStatusToString(GATT_INVALID_ATTRIBUTE_LENGTH) == "13 [INVALID_ATTRIBUTE_LENGTH]"
    ensures GattStatusToString(GATT_FAILURE) == "257 [FAILURE]"
    ensures GattStatusToString(1) == "1 [UNKNOWN]"
  {
    assert IntToDecimal(0) == "0" && IntToDecimal(1) == "1";
    assert NaturalToDecimal(13) == "13";
    assert NaturalToDecimal(25) == "25";
    assert IntToDecimal(257) == "257";
    StatusTextLiterals();
  }
}
