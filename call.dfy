/**
  The AT call-control layer: the `+CLCC` (list current calls, section 7.18 of
  3GPP TS 27.007) response parser, the command strings for dialling, answering
  and hanging up (section 6.3 of ITU-T V.250, section 7.13 of 3GPP TS 27.007),
  the mute replies, and the incoming-call worker's start/stop flags and its
  poll-to-poll diff.

  The AT transport is not modelled: an operation's command is a string built
  here, and the transport's answer (response lines or an error) is a parameter.
 */
module Call {
  import opened Wrappers
  import opened GoStrings

  type Int64 = x: int | MinInt64 <= x <= MaxInt64

  /** One row of the current-calls list. */
  datatype CallStatus = CallStatus(
    index: int,
    direction: string,
    status: string,
    mode: string,
    number: string,
    numberType: string)

  // ----- information-line prefixes of the AT library -----

  /** An information line answering `cmd` starts with `cmd` and a colon. */
  predicate InfoHasPrefix(line: string, cmd: string) {
    HasPrefix(line, cmd + ":")
  }

  /** Drops `cmd:` and the spaces after it. */
  function InfoTrimPrefix(line: string, cmd: string): string {
    TrimLeftChar(TrimPrefix(line, cmd + ":"), ' ')
  }

  /** The line `cmd: body` answers `cmd`, and its payload is `body` when that starts with no space. */
  lemma InfoLine(cmd: string, body: string)
    requires body == [] || body[0] != ' '
    ensures InfoHasPrefix(cmd + ": " + body, cmd)
    ensures InfoTrimPrefix(cmd + ": " + body, cmd) == body
  {
    var line := cmd + ": " + body;
    assert line[..|cmd + ":"|] == cmd + ":";
    assert TrimPrefix(line, cmd + ":") == " " + body;
    assert (" " + body)[1..] == body;
  }

  // ----- code tables -----

  const Directions: seq<string> := ["MO", "MT"]
  const Statuses: seq<string> := ["ACTIVE", "HELD", "DIALING", "ALERTING", "INCOMING", "WAITING"]
  const Modes: seq<string> := ["VOICE", "DATA", "FAX"]
  const Unknown: string := "UNKNOWN"

  /** The name a code table gives to code `k`, or UNKNOWN outside the table. */
  function NameOf(table: seq<string>, k: nat): string {
    if k < |table| then table[k] else Unknown
  }

  /**
    The name a code table gives to the decimal text `code`: the one-digit text
    of a code inside the table names its entry; any other text is UNKNOWN.
   */
  function CodeName(table: seq<string>, code: string): (r: string)
    requires |table| <= 10
    ensures r == Unknown || r in table
    ensures forall k :: 0 <= k < |table| && code == [DigitChar(k)] ==> r == table[k]
    ensures (forall k :: 0 <= k < |table| ==> code != [DigitChar(k)]) ==> r == Unknown
  {
    if |code| == 1 && IsDigit(code[0]) && (code[0] as int) - ('0' as int) < |table|
    then
      var k := (code[0] as int) - ('0' as int);
      assert code == [DigitChar(k)];
      table[k]
    else Unknown
  }

  // ----- +CLCC parser -----

  /** The comma-separated fields of a `+CLCC` line after its prefix. */
  function ClccFields(line: string): (parts: seq<string>)
    ensures |parts| >= 1
  {
    Split(InfoTrimPrefix(line, "+CLCC"), ',')
  }

  /**
    Reads the fields of a `+CLCC` line into a call record: fewer than five
    fields, or a first field that is not a 64-bit integer, is an error; codes
    outside the tables are UNKNOWN, never an error.
   */
  function ParseClccFields(parts: seq<string>): (r: Result<CallStatus, string>)
    ensures |parts| < 5 ==> r == Failure("invalid CLCC response format")
    ensures |parts| >= 5 && Atoi(TrimSpace(parts[0])).Failure? ==>
      r.Failure? && HasPrefix(r.error, "invalid call index: ")
    ensures r.Success? ==> |parts| >= 5 && Atoi(TrimSpace(parts[0])) == Success(r.value.index)
    ensures r.Success? ==> MinInt64 <= r.value.index <= MaxInt64
    ensures r.Success? ==>
      && (r.value.direction == Unknown || r.value.direction in Directions)
      && (r.value.status == Unknown || r.value.status in Statuses)
      && (r.value.mode == Unknown || r.value.mode in Modes)
    ensures r.Success? ==>
      && r.value.direction == CodeName(Directions, TrimSpace(parts[1]))
      && r.value.status == CodeName(Statuses, TrimSpace(parts[2]))
      && r.value.mode == CodeName(Modes, TrimSpace(parts[3]))
    ensures r.Success? && |parts| > 5 ==> r.value.number == TrimChar(TrimSpace(parts[5]), '"')
    ensures r.Success? && |parts| > 6 ==> r.value.numberType == TrimSpace(parts[6])
    ensures r.Success? && |parts| <= 5 ==> r.value.number == "" && r.value.numberType == ""
    ensures r.Success? && |parts| <= 6 ==> r.value.numberType == ""
  {
    if |parts| < 5 then Failure("invalid CLCC response format")
    else
      match Atoi(TrimSpace(parts[0]))
      case Failure(e) => Failure("invalid call index: " + e)
      case Success(index) =>
        Success(CallStatus(
          index,
          CodeName(Directions, TrimSpace(parts[1])),
          CodeName(Statuses, TrimSpace(parts[2])),
          CodeName(Modes, TrimSpace(parts[3])),
          if |parts| > 5 then TrimChar(TrimSpace(parts[5]), '"') else "",
          if |parts| > 6 then TrimSpace(parts[6]) else ""))
  }

  /** The multiparty field and any field past the seventh never change what a row parses as. */
  lemma ParseFieldsIgnored(parts: seq<string>, mpty: string, extra: seq<string>)
    requires |parts| >= 5
    ensures ParseClccFields(parts[4 := mpty]) == ParseClccFields(parts)
    ensures |parts| >= 7 ==> ParseClccFields(parts + extra) == ParseClccFields(parts)
  {
    var q := parts[4 := mpty];
    assert q[0] == parts[0] && q[1] == parts[1] && q[2] == parts[2] && q[3] == parts[3];
    assert |q| > 5 ==> q[5] == parts[5];
    assert |q| > 6 ==> q[6] == parts[6];
    if |parts| >= 7 {
      var w := parts + extra;
      assert w[0] == parts[0] && w[1] == parts[1] && w[2] == parts[2] && w[3] == parts[3];
      assert w[5] == parts[5] && w[6] == parts[6];
    }
  }

  /**
    Parses `+CLCC: <id1>,<dir>,<stat>,<mode>,<mpty>[,<number>,<type>...]`
    through `ParseClccFields`; a line with fewer than four commas after the
    prefix has fewer than five fields and fails.
   */
  function ParseCallStatus(line: string): (r: Result<CallStatus, string>)
    ensures Count(InfoTrimPrefix(line, "+CLCC"), ',') < 4 ==> r == Failure("invalid CLCC response format")
  {
    SplitCount(InfoTrimPrefix(line, "+CLCC"), ',');
    ParseClccFields(ClccFields(line))
  }

  // ----- the line a modem sends, as a partner of the parser -----

  /** The fields of a `+CLCC` row as a modem reports them (numeric codes). */
  datatype ClccRow = ClccRow(id: Int64, dir: nat, stat: nat, mode: nat, mpty: nat, number: Option<(string, nat)>)

  /** A number the modem can put between quotes: no quote and no comma inside. */
  predicate QuotableNumber(n: string) {
    '"' !in n && ',' !in n
  }

  function RowFields(row: ClccRow): seq<string> {
    [Itoa(row.id), Itoa(row.dir), Itoa(row.stat), Itoa(row.mode), Itoa(row.mpty)]
    + match row.number
      case None => []
      case Some(nt) => ["\"" + nt.0 + "\"", Itoa(nt.1)]
  }

  /** The information line a modem sends for `row`. */
  function FormatClcc(row: ClccRow): string {
    "+CLCC" + ": " + Join(RowFields(row), ',')
  }

  /** The record the parser should produce for `row`, read through the code tables. */
  function Expected(row: ClccRow): CallStatus {
    CallStatus(
      row.id, NameOf(Directions, row.dir), NameOf(Statuses, row.stat), NameOf(Modes, row.mode),
      if row.number.Some? then row.number.value.0 else "",
      if row.number.Some? then Itoa(row.number.value.1) else "")
  }

  lemma {:induction false} NatToDigitsShape(n: nat)
    ensures AllDigits(NatToDigits(n))
    ensures n >= 10 ==> |NatToDigits(n)| >= 2
    ensures n < 10 ==> NatToDigits(n) == [DigitChar(n)]
  {
    NatToDigitsValue(n);
    if n >= 10 {
      NatToDigitsShape(n / 10);
    }
  }

  lemma DigitsPlain(ds: string)
    requires |ds| >= 1 && AllDigits(ds)
    ensures ',' !in ds && '"' !in ds && '-' !in ds
    ensures !IsSpace(ds[0]) && !IsSpace(ds[|ds| - 1])
  {
    assert IsDigit(ds[0]) && IsDigit(ds[|ds| - 1]);
  }

  /** The decimal text of an integer: no comma, no quote, no white space at either end. */
  lemma ItoaPlain(n: int)
    ensures |Itoa(n)| >= 1 && ',' !in Itoa(n) && '"' !in Itoa(n)
    ensures TrimSpace(Itoa(n)) == Itoa(n)
  {
    var m: nat := if n < 0 then -n else n;
    NatToDigitsShape(m);
    var ds := NatToDigits(m);
    DigitsPlain(ds);
    var t := Itoa(n);
    if n < 0 {
      assert t == "-" + ds;
      assert t[|t| - 1] == ds[|ds| - 1];
      assert ',' !in t && '"' !in t;
    } else {
      assert t == ds;
    }
    assert !IsSpace(t[0]) && !IsSpace(t[|t| - 1]);
  }

  lemma CodeNameOfItoa(table: seq<string>, k: nat)
    requires |table| <= 10
    ensures CodeName(table, Itoa(k)) == NameOf(table, k)
  {
    NatToDigitsShape(k);
    if k < 10 {
      assert Itoa(k) == [DigitChar(k)];
    }
  }

  lemma QuotedTrim(n: string)
    requires '"' !in n
    ensures TrimSpace("\"" + n + "\"") == "\"" + n + "\""
    ensures TrimChar(TrimSpace("\"" + n + "\""), '"') == n
  {
    var q := "\"" + n + "\"";
    assert q[0] == '"' && q[|q| - 1] == '"';
    assert q[1..] == n + "\"";
    assert TrimLeftChar(q, '"') == TrimLeftChar(n + "\"", '"');
    if n == [] {
      assert TrimLeftChar(n + "\"", '"') == TrimLeftChar([], '"');
    } else {
      assert (n + "\"")[0] == n[0];
      assert n[0] in n;
      assert TrimLeftChar(n + "\"", '"') == n + "\"";
      assert (n + "\"")[..|n|] == n;
      assert n[|n| - 1] in n;
    }
  }

  /** No field of a row holds a comma, and the first starts with a digit or a sign. */
  lemma RowFieldsPlain(row: ClccRow)
    requires row.number.Some? ==> QuotableNumber(row.number.value.0)
    ensures var fields := RowFields(row);
      && (forall i :: 0 <= i < |fields| ==> ',' !in fields[i])
      && |fields[0]| >= 1 && fields[0][0] != ' '
  {
    var fields := RowFields(row);
    RowFieldsShape(row);
    forall i | 0 <= i < |fields|
      ensures ',' !in fields[i]
    {
      var code := if i == 0 then row.id as int else if i == 1 then row.dir else if i == 2 then row.stat
        else if i == 3 then row.mode else if i == 4 then row.mpty else row.number.value.1;
      if i != 5 {
        assert fields[i] == Itoa(code);
        ItoaPlain(code);
      }
    }
    ItoaPlain(row.id);
    assert !IsSpace(fields[0][0]);
  }

  /** The fields of the line a modem sends for `row` are the row's fields. */
  lemma FormattedFields(row: ClccRow)
    requires row.number.Some? ==> QuotableNumber(row.number.value.0)
    ensures ClccFields(FormatClcc(row)) == RowFields(row)
  {
    var fields := RowFields(row);
    RowFieldsPlain(row);
    var body := Join(fields, ',');
    assert body == fields[0] + [','] + Join(fields[1..], ',');
    assert body[0] == fields[0][0];
    InfoLine("+CLCC", body);
    JoinSplit(fields, ',');
  }

  /** Five or more fields whose readings are those of `c` parse as `c`. */
  lemma ParseFieldsAs(parts: seq<string>, c: CallStatus)
    requires |parts| >= 5 && Atoi(TrimSpace(parts[0])) == Success(c.index)
    requires CodeName(Directions, TrimSpace(parts[1])) == c.direction
    requires CodeName(Statuses, TrimSpace(parts[2])) == c.status
    requires CodeName(Modes, TrimSpace(parts[3])) == c.mode
    requires (if |parts| > 5 then TrimChar(TrimSpace(parts[5]), '"') else "") == c.number
    requires (if |parts| > 6 then TrimSpace(parts[6]) else "") == c.numberType
    ensures ParseClccFields(parts) == Success(c)
  {
  }

  /** The decimal text of a code reads through a table as the table's name for that code. */
  lemma CodeField(table: seq<string>, k: nat, field: string)
    requires |table| <= 10 && field == Itoa(k)
    ensures CodeName(table, TrimSpace(field)) == NameOf(table, k)
  {
    ItoaPlain(k);
    CodeNameOfItoa(table, k);
  }

  lemma RowFieldsShape(row: ClccRow)
    ensures var parts := RowFields(row);
      && |parts| == (if row.number.Some? then 7 else 5)
      && parts[0] == Itoa(row.id) && parts[1] == Itoa(row.dir) && parts[2] == Itoa(row.stat)
      && parts[3] == Itoa(row.mode) && parts[4] == Itoa(row.mpty)
      && (row.number.Some? ==>
            parts[5] == "\"" + row.number.value.0 + "\"" && parts[6] == Itoa(row.number.value.1))
  {
  }

  lemma ParseRowFields(row: ClccRow)
    requires row.number.Some? ==> QuotableNumber(row.number.value.0)
    ensures ParseClccFields(RowFields(row)) == Success(Expected(row))
  {
    var parts := RowFields(row);
    RowFieldsShape(row);
    ItoaPlain(row.id);
    ItoaAtoi(row.id);
    CodeField(Directions, row.dir, parts[1]);
    CodeField(Statuses, row.stat, parts[2]);
    CodeField(Modes, row.mode, parts[3]);
    if row.number.Some? {
      QuotedTrim(row.number.value.0);
      ItoaPlain(row.number.value.1);
    }
    ParseFieldsAs(parts, Expected(row));
  }

  /** Parsing the line a modem sends for any row gives back that row, its codes read through the tables. */
  lemma ParseFormatted(row: ClccRow)
    requires row.number.Some? ==> QuotableNumber(row.number.value.0)
    ensures ParseCallStatus(FormatClcc(row)) == Success(Expected(row))
  {
    FormattedFields(row);
    ParseRowFields(row);
  }

  lemma ItoaExample(n: nat)
    requires n == 129
    ensures Itoa(n) == "129"
  {
    assert NatToDigits(1) == "1";
    assert NatToDigits(12) == "12";
  }

  /** An incoming voice call from +15551234567 (type 129, section 7.18 of 3GPP TS 27.007) parses as such. */
  lemma ParseIncomingExample(row: ClccRow)
    requires row == ClccRow(1, 1, 4, 0, 0, Some(("+15551234567", 129)))
    ensures ParseCallStatus(FormatClcc(row))
         == Success(CallStatus(1, "MT", "INCOMING", "VOICE", "+15551234567", "129"))
  {
    ItoaExample(129);
    assert Expected(row) == CallStatus(1, "MT", "INCOMING", "VOICE", "+15551234567", "129");
    ParseFormatted(row);
  }

  // ----- GetCallStatus -----

  /** The call a response line contributes: a `+CLCC` line that parses. */
  function ClccCall(line: string): (r: Option<CallStatus>)
    ensures r.Some? <==> InfoHasPrefix(line, "+CLCC") && ParseCallStatus(line).Success?
    ensures r.Some? ==> ParseCallStatus(line) == Success(r.value)
  {
    if InfoHasPrefix(line, "+CLCC") then
      match ParseCallStatus(line)
      case Success(c) => Some(c)
      case Failure(_) => None
    else None
  }

  /** The calls a `+CLCC` response lists: its `+CLCC` lines that parse, in order. */
  function ListedCalls(lines: seq<string>): seq<CallStatus> {
    FilterMap(ClccCall, lines)
  }

  /**
    Every listed call is the parse of a `+CLCC` line of the response, every
    such parse is listed, and listing keeps the order of the lines.
   */
  lemma ListedCallsSpec(lines: seq<string>, more: seq<string>, c: CallStatus)
    ensures c in ListedCalls(lines) <==>
      exists i :: 0 <= i < |lines| && InfoHasPrefix(lines[i], "+CLCC") && ParseCallStatus(lines[i]) == Success(c)
    ensures ListedCalls(lines + more) == ListedCalls(lines) + ListedCalls(more)
    ensures |ListedCalls(lines)| <= |lines|
  {
    FilterMapMembers(ClccCall, lines, c);
    FilterMapAppend(ClccCall, lines, more);
    FilterMapLength(ClccCall, lines);
  }

  lemma NextLine(lines: seq<string>, i: nat)
    requires i < |lines|
    ensures FilterMap(ClccCall, lines[..i + 1]) == FilterMap(ClccCall, lines[..i])
      + if InfoHasPrefix(lines[i], "+CLCC") && ParseCallStatus(lines[i]).Success?
        then [ParseCallStatus(lines[i]).value] else []
  {
    assert lines[..i + 1][..i] == lines[..i];
  }

  /**
    Sends `+CLCC` and lists the calls of the response; a transport error
    yields no calls and that error.
   */
  method GetCallStatus(response: Result<seq<string>, string>) returns (calls: seq<CallStatus>, err: Option<string>)
    ensures response.Failure? ==> calls == [] && err == Some(response.error)
    ensures response.Success? ==> err == None && calls == ListedCalls(response.value)
  {
    if response.Failure? {
      return [], Some(response.error);
    }
    var lines := response.value;
    calls := [];
    var i := 0;
    while i < |lines|
      invariant 0 <= i <= |lines|
      invariant calls == FilterMap(ClccCall, lines[..i])
    {
      var line := lines[i];
      if InfoHasPrefix(line, "+CLCC") {
        var parsed := ParseCallStatus(line);
        if parsed.Success? {
          calls := calls + [parsed.value];
        }
      }
      NextLine(lines, i);
      i := i + 1;
    }
    assert lines[..i] == lines;
    err := None;
  }

  // ----- command strings -----

  /** `ATD<number>;`: a voice call to `number`, sent without any check of the number. */
  function DialCommand(number: string): (cmd: string)
    ensures |cmd| == |number| + 2 && cmd[0] == 'D' && cmd[|cmd| - 1] == ';'
    ensures cmd[1..|cmd| - 1] == number
  {
    "D" + number + ";"
  }

  const PickUpCommand: string := "A"
  const HangUpCommand: string := "+CHUP"

  /** `+CHUP` for an index of zero or below (every call), else `+CHLD=1<index>` for that call only. */
  function HangUpSpecificCommand(callIndex: Int64): (cmd: string)
    ensures callIndex <= 0 ==> cmd == HangUpCommand
    ensures callIndex > 0 ==> HasPrefix(cmd, "+CHLD=1") && cmd[7..] == Itoa(callIndex as int)
    ensures callIndex > 0 ==> Atoi(cmd[7..]) == Success(callIndex as int)
  {
    if callIndex <= 0 then HangUpCommand
    else
      ItoaAtoi(callIndex);
      var cmd := "+CHLD=1" + Itoa(callIndex);
      assert cmd[7..] == Itoa(callIndex);
      cmd
  }

  function MuteCommand(enable: bool): (cmd: string)
    ensures HasPrefix(cmd, "+CMUT=") && |cmd| == 7
    ensures cmd[6] == (if enable then '1' else '0')
  {
    if enable then "+CMUT=1" else "+CMUT=0"
  }

  function VMuteCommand(enable: bool): (cmd: string)
    ensures HasPrefix(cmd, "+VMUTE=") && |cmd| == 8
    ensures cmd[7] == (if enable then '1' else '0')
  {
    if enable then "+VMUTE=1" else "+VMUTE=0"
  }

  // ----- mute replies -----

  /** Position of the first information line for `cmd`, or `|lines|` when there is none. */
  function FirstInfoIndex(lines: seq<string>, cmd: string): (i: nat)
    ensures i <= |lines|
    ensures i < |lines| ==> InfoHasPrefix(lines[i], cmd)
    ensures forall j :: 0 <= j < i ==> !InfoHasPrefix(lines[j], cmd)
    decreases |lines|
  {
    if lines == [] || InfoHasPrefix(lines[0], cmd) then 0
    else 1 + FirstInfoIndex(lines[1..], cmd)
  }

  /**
    The first information line for `cmd`, with its value read as on ("1") or
    off; a reply without such a line is the error `missing`.
   */
  function FirstInfoFlag(lines: seq<string>, cmd: string, missing: string): (r: Result<bool, string>)
    ensures var i := FirstInfoIndex(lines, cmd);
      r == if i == |lines| then Failure(missing) else Success(TrimSpace(InfoTrimPrefix(lines[i], cmd)) == "1")
    decreases |lines|
  {
    if lines == [] then Failure(missing)
    else if InfoHasPrefix(lines[0], cmd) then Success(TrimSpace(InfoTrimPrefix(lines[0], cmd)) == "1")
    else FirstInfoFlag(lines[1..], cmd, missing)
  }

  /** The `+CMUT?` query and its not-found error. */
  const MuteQuery := "+CMUT"
  const MuteMissing := "no mute status found in response"
  /** The `+VMUTE?` query and its not-found error. */
  const VMuteQuery := "+VMUTE"
  const VMuteMissing := "no voice mute status found in response"

  /**
    `GetMuteStatus` (with `MuteQuery`, `MuteMissing`) and `GetVMuteStatus`
    (with `VMuteQuery`, `VMuteMissing`): a transport error is passed through;
    otherwise the first `cmd:` line of the reply decides, and a reply without
    one is the not-found error.
   */
  function InfoFlagStatus(response: Result<seq<string>, string>, cmd: string, missing: string): (r: Result<bool, string>)
    ensures response.Failure? ==> r == Failure(response.error)
    ensures response.Success? ==> r == FirstInfoFlag(response.value, cmd, missing)
  {
    match response
    case Failure(e) => Failure(e)
    case Success(lines) => FirstInfoFlag(lines, cmd, missing)
  }

  /** A reply line `cmd: v` with a one-character value reads as on exactly when the value is 1. */
  lemma InfoFlagLine(cmd: string, v: string, missing: string)
    requires |v| == 1 && !IsSpace(v[0])
    ensures FirstInfoFlag([cmd + ": " + v], cmd, missing) == Success(v == "1")
  {
    InfoLine(cmd, v);
    assert TrimSpace(v) == v;
  }

  /** A reply that echoes the value a mute command set reads back as that setting. */
  lemma MuteReadBack(enable: bool, muteValue: string, vmuteValue: string)
    requires muteValue == MuteCommand(enable)[6..] && vmuteValue == VMuteCommand(enable)[7..]
    ensures InfoFlagStatus(Success([MuteQuery + ": " + muteValue]), MuteQuery, MuteMissing) == Success(enable)
    ensures InfoFlagStatus(Success([VMuteQuery + ": " + vmuteValue]), VMuteQuery, VMuteMissing) == Success(enable)
  {
    assert (muteValue == "1") == enable;
    InfoFlagLine(MuteQuery, muteValue, MuteMissing);
    assert (vmuteValue == "1") == enable;
    InfoFlagLine(VMuteQuery, vmuteValue, VMuteMissing);
  }

  // ----- the incoming-call worker -----

  /** Position of the last row of the poll with index `i`, or -1 when there is none. */
  function LastRow(calls: seq<CallStatus>, i: int): (k: int)
    ensures -1 <= k < |calls|
    ensures k >= 0 ==> calls[k].index == i
    ensures forall j :: k < j < |calls| ==> calls[j].index != i
    decreases |calls|
  {
    if calls == [] then -1
    else if calls[|calls| - 1].index == i then |calls| - 1
    else LastRow(calls[..|calls| - 1], i)
  }

  /** The calls of one poll, keyed by index; a later row with the same index replaces an earlier one. */
  function IndexMap(calls: seq<CallStatus>): (m: map<int, CallStatus>)
    ensures forall i :: i in m <==> exists k :: 0 <= k < |calls| && calls[k].index == i
    ensures forall i :: i in m ==> m[i].index == i
    ensures forall i :: i in m ==> 0 <= LastRow(calls, i) && m[i] == calls[LastRow(calls, i)]
    decreases |calls|
  {
    if calls == [] then map[]
    else
      var c := calls[|calls| - 1];
      var m := IndexMap(calls[..|calls| - 1]);
      assert forall k :: 0 <= k < |calls| - 1 ==> calls[..|calls| - 1][k] == calls[k];
      m[c.index := c]
  }

  /** Whether the call at `index` of this poll is reported: it is INCOMING and was absent or in another status before. */
  predicate Fires(last: map<int, CallStatus>, current: map<int, CallStatus>, index: int) {
    index in current && current[index].status == "INCOMING"
    && (index !in last || last[index].status != current[index].status)
  }

  /** A call that stays INCOMING across two successful polls is reported at most at the first. */
  lemma StaysIncomingFiresOnce(p0: map<int, CallStatus>, p1: seq<CallStatus>, p2: seq<CallStatus>, i: int)
    requires i in IndexMap(p1) && IndexMap(p1)[i].status == "INCOMING"
    requires i in IndexMap(p2) && IndexMap(p2)[i].status == "INCOMING"
    ensures Fires(p0, IndexMap(p1), i) <==> (i !in p0 || p0[i].status != "INCOMING")
    ensures !Fires(IndexMap(p1), IndexMap(p2), i)
  {
  }

  lemma SomeKey(todo: set<int>)
    requires todo != {}
    ensures exists k :: k in todo
  {
    if forall k :: k !in todo {
      assert false;
    }
  }

  /** Builds the index map of one poll, as the worker does before comparing. */
  method CurrentCalls(calls: seq<CallStatus>) returns (current: map<int, CallStatus>)
    ensures current == IndexMap(calls)
  {
    current := map[];
    var i := 0;
    while i < |calls|
      invariant 0 <= i <= |calls|
      invariant current == IndexMap(calls[..i])
    {
      assert calls[..i + 1][..i] == calls[..i];
      current := current[calls[i].index := calls[i]];
      i := i + 1;
    }
    assert calls[..i] == calls;
  }

  /**
    The calls the callback is invoked with after a poll: exactly those of the
    poll that fire, each once, in the map's (unspecified) iteration order.
   */
  method NewlyIncoming(last: map<int, CallStatus>, current: map<int, CallStatus>) returns (fired: seq<CallStatus>)
    requires forall i :: i in current ==> current[i].index == i
    ensures forall c :: c in fired ==> Fires(last, current, c.index) && current[c.index] == c
    ensures forall i :: Fires(last, current, i) ==> current[i] in fired
    ensures forall a, b :: 0 <= a < b < |fired| ==> fired[a].index != fired[b].index
  {
    fired := [];
    var todo := current.Keys;
    while todo != {}
      invariant todo <= current.Keys
      invariant forall c :: c in fired ==> Fires(last, current, c.index) && current[c.index] == c && c.index !in todo
      invariant forall i :: i in current && i !in todo && Fires(last, current, i) ==> current[i] in fired
      invariant forall a, b :: 0 <= a < b < |fired| ==> fired[a].index != fired[b].index
      decreases todo
    {
      SomeKey(todo);
      var k :| k in todo;
      if Fires(last, current, k) {
        fired := fired + [current[k]];
      }
      todo := todo - {k};
    }
  }

  /** The call manager: the flags `StartWorker`/`StopWorker` set and the worker's last poll. */
  class CallManager {
    const hasCallback: bool
    var isWorkerRunning: bool
    var hasWorkerCancel: bool
    var workerCancelled: bool
    /** The worker goroutine's `lastKnownCalls`: the previous successful poll. */
    var lastKnownCalls: map<int, CallStatus>

    ghost predicate Valid()
      reads this
    {
      isWorkerRunning ==> hasWorkerCancel && !workerCancelled && hasCallback
    }

    /** `call.New`: the worker is not running. */
    constructor (hasCallback: bool)
      ensures Valid()
      ensures this.hasCallback == hasCallback
      ensures !isWorkerRunning && !hasWorkerCancel && !workerCancelled && lastKnownCalls == map[]
    {
      this.hasCallback := hasCallback;
      isWorkerRunning := false;
      hasWorkerCancel := false;
      workerCancelled := false;
      lastKnownCalls := map[];
    }

    /** Refuses to start twice or without a callback; otherwise starts a worker with an empty snapshot. */
    method StartWorker() returns (err: Option<string>)
      requires Valid()
      modifies this
      ensures Valid()
      ensures old(isWorkerRunning) ==> err == Some("worker is already running") && unchanged(this)
      ensures !old(isWorkerRunning) && !hasCallback ==> err == Some("no callback function provided") && unchanged(this)
      ensures !old(isWorkerRunning) && hasCallback ==>
        err == None && isWorkerRunning && hasWorkerCancel && !workerCancelled && lastKnownCalls == map[]
    {
      if isWorkerRunning {
        return Some("worker is already running");
      }
      if !hasCallback {
        return Some("no callback function provided");
      }
      hasWorkerCancel := true;
      workerCancelled := false;
      isWorkerRunning := true;
      lastKnownCalls := map[];
      err := None;
    }

    /** Cancels a running worker; does nothing when none runs. */
    method StopWorker()
      requires Valid()
      modifies this
      ensures Valid() && !isWorkerRunning
      ensures old(isWorkerRunning) ==> workerCancelled
      ensures !old(isWorkerRunning) ==> unchanged(this)
      ensures hasWorkerCancel == old(hasWorkerCancel) && lastKnownCalls == old(lastKnownCalls)
    {
      if isWorkerRunning && hasWorkerCancel {
        workerCancelled := true;
        isWorkerRunning := false;
      }
    }

    /**
      One tick of the worker: on a failed poll nothing changes and nothing is
      reported; otherwise the newly incoming calls of the poll are reported and
      the poll becomes the new snapshot.
     */
    method WorkerTick(polled: Result<seq<CallStatus>, string>) returns (fired: seq<CallStatus>)
      requires Valid() && isWorkerRunning
      modifies this
      ensures Valid() && isWorkerRunning
      ensures polled.Failure? ==> fired == [] && unchanged(this)
      ensures polled.Success? ==> lastKnownCalls == IndexMap(polled.value)
      ensures polled.Success? && hasCallback ==>
        (forall c :: c in fired ==> Fires(old(lastKnownCalls), lastKnownCalls, c.index) && lastKnownCalls[c.index] == c)
        && (forall i :: Fires(old(lastKnownCalls), lastKnownCalls, i) ==> lastKnownCalls[i] in fired)
        && (forall a, b :: 0 <= a < b < |fired| ==> fired[a].index != fired[b].index)
      ensures !hasCallback ==> fired == []
    {
      if polled.Failure? {
        return [];
      }
      var current := CurrentCalls(polled.value);
      if hasCallback {
        fired := NewlyIncoming(lastKnownCalls, current);
      } else {
        fired := [];
      }
      lastKnownCalls := current;
    }

    /** `IsWorkerRunning`. */
    function IsWorkerRunning(): (running: bool)
      reads this
      ensures running == isWorkerRunning
    {
      isWorkerRunning
    }
  }
}
