/** The offsets file: a hand-written printer and parser, and their round trip. */
module OffsetsFile {
  import opened Basics

  /** A Go call that returns, fails with an error, or slices out of range. */
  datatype Outcome<+T> = Ok(value: T) | Err | Panic {
    predicate IsFailure() { !Ok? }
    function PropagateFailure<U>(): Outcome<U>
      requires IsFailure()
    {
      if Err? then Err else Panic
    }
    function Extract(): T
      requires Ok?
    {
      value
    }
  }

  datatype Job = Job(filename: string, inode: nat, sourceID: nat, offsets: seq<KV>)

  datatype Entry = Entry(filename: string, streams: map<StreamName, int>)

  type Table = map<nat, Entry>

  const MAX_UINT: nat := 0xffff_ffff_ffff_ffff
  const MAX_INT: nat := 0x7fff_ffff_ffff_ffff

  const FILE_KEY := "- file: "
  const INODE_KEY := "  inode: "
  const SOURCE_KEY := "  source_id: "
  const STREAMS_KEY := "  streams:"

  // ----------------------------------------------------------------- numbers

  function Digit(d: nat): char
    requires d < 10
  {
    '0' + d as char
  }

  /** `strconv.AppendUint` in base 10. */
  function Format(n: nat): string {
    if n < 10 then [Digit(n)] else Format(n / 10) + [Digit(n % 10)]
  }

  predicate IsDigit(c: char) {
    '0' <= c <= '9'
  }

  function DigitValue(c: char): nat
    requires IsDigit(c)
  {
    (c - '0') as nat
  }

  /** The value of a string of digits. */
  function Decimal(s: string): Option<nat> {
    if s == "" then Some(0)
    else
      var c := s[|s| - 1];
      var init := Decimal(s[..|s| - 1]);
      if init.None? || !IsDigit(c) then None else Some(init.value * 10 + DigitValue(c))
  }

  function ParseUint(s: string): Outcome<nat> {
    var d := Decimal(s);
    if s == "" || d.None? || d.value > MAX_UINT then Err else Ok(d.value)
  }

  function ParseInt(s: string): Outcome<int> {
    if s == "" then Err
    else
      var neg := s[0] == '-';
      var body := if neg || s[0] == '+' then s[1..] else s;
      var d := Decimal(body);
      if body == "" || d.None? then Err
      else if !neg && d.value > MAX_INT then Err
      else if neg && d.value > MAX_INT + 1 then Err
      else Ok(if neg then -(d.value as int) else d.value)
  }

  lemma {:induction false} FormatRoundTrip(n: nat)
    ensures Decimal(Format(n)) == Some(n)
    ensures Format(n) != "" && forall i :: 0 <= i < |Format(n)| ==> IsDigit(Format(n)[i])
  {
    if n < 10 {
      assert [Digit(n)][..0] == "";
    } else {
      FormatRoundTrip(n / 10);
      assert Format(n)[..|Format(n)| - 1] == Format(n / 10);
    }
  }

  lemma ParseFormatted(n: nat)
    ensures ParseUint(Format(n)) == if n <= 0xffff_ffff_ffff_ffff then Ok(n) else Err
    ensures ParseInt(Format(n)) == if n <= 0x7fff_ffff_ffff_ffff then Ok(n) else Err
  {
    FormatRoundTrip(n);
    assert IsDigit(Format(n)[0]);
  }

  // ------------------------------------------------------------------ parsing

  /** `strings.IndexByte`. */
  function Index(s: string, c: char): (i: int)
    ensures -1 <= i < |s|
    ensures i >= 0 ==> s[i] == c && c !in s[..i]
    ensures i == -1 ==> c !in s
  {
    if s == "" then -1
    else if s[0] == c then 0
    else
      var i := Index(s[1..], c);
      if i < 0 then -1
      else
        assert s[..i + 1] == [s[0]] + s[1..][..i];
        i + 1
  }

  /** The text after `start` on the first line, and what follows the line. The error message
      of a line shorter than `start` slices it out of range. */
  function ParseLine(content: string, start: string): (r: Outcome<(string, string)>)
    ensures r.Ok? ==> |r.value.1| < |content|
  {
    var linePos := Index(content, '\n');
    if linePos < 0 then Err
    else
      var line := content[..linePos];
      if linePos < |start| then Panic
      else if line[..|start|] != start then Err
      else Ok((line[|start|..], content[linePos + 1..]))
  }

  function ParseStream(line: string): Outcome<(StreamName, int)> {
    if |line| < 5 || line[..4] != "    " then Err
    else
      var pos := Index(line, ':');
      if pos < 0 then Err
      else if pos < 4 then Panic
      else if line[4..pos] == "" then Err
      else if pos + 2 > |line| then Panic
      else
        var offset :- ParseInt(line[pos + 2..]);
        Ok((line[4..pos], offset))
  }

  /** The loop of `parseStreams`; an empty name and a repeated one are refused before the
      offset is looked at. */
  function StreamsLoop(content: string, streams: map<StreamName, int>): (r: Outcome<(string, map<StreamName, int>)>)
    ensures r.Ok? ==> |r.value.0| <= |content|
    decreases |content|
  {
    if content == "" || content[0] == '-' then Ok((content, streams))
    else
      var linePos := Index(content, '\n');
      if linePos < 0 then Err
      else
        var line := content[..linePos];
        if Repeats(line, streams) then Err
        else
          var (stream, offset) :- ParseStream(line);
          StreamsLoop(content[linePos + 1..], streams[stream := offset])
  }

  predicate Repeats(line: string, streams: map<StreamName, int>) {
    && |line| >= 5 && line[..4] == "    "
    && var pos := Index(line, ':');
    pos > 4 && line[4..pos] in streams
  }

  function ParseStreams(content: string): (r: Outcome<(string, map<StreamName, int>)>)
    ensures r.Ok? ==> |r.value.0| < |content|
  {
    var (_, rest) :- ParseLine(content, STREAMS_KEY);
    StreamsLoop(rest, map[])
  }

  function ParseOne(content: string, table: Table): (r: Outcome<(string, Table)>)
    ensures r.Ok? ==> |r.value.0| < |content|
  {
    var (filename, c1) :- ParseLine(content, FILE_KEY);
    var (inodeStr, c2) :- ParseLine(c1, INODE_KEY);
    var (sourceStr, c3) :- ParseLine(c2, SOURCE_KEY);
    var _ :- ParseUint(inodeStr);
    var source :- ParseUint(sourceStr);
    if source in table then Err
    else
      var (rest, streams) :- ParseStreams(c3);
      Ok((rest, table[source := Entry(filename, streams)]))
  }

  function Parse(content: string, table: Table): Outcome<Table>
    decreases |content|
  {
    if content == "" then Ok(table)
    else
      var (rest, t) :- ParseOne(content, table);
      Parse(rest, t)
  }

  // ----------------------------------------------------------------- printing

  /** The conversion of an int64 to uint64. */
  function AsUint(n: int): nat {
    n % (MAX_UINT + 1)
  }

  function LineOf(key: string, text: string): string {
    key + text + ['\n']
  }

  /** The line of a stream, without its newline. */
  function StreamLine(kv: KV): string {
    "    " + kv.stream + [':'] + (" " + Format(AsUint(kv.offset)))
  }

  function PrintStreams(s: seq<KV>): string {
    if s == [] then "" else LineOf("", StreamLine(s[0])) + PrintStreams(s[1..])
  }

  function PrintHead(j: Job): string {
    LineOf(FILE_KEY, j.filename) + LineOf(INODE_KEY, Format(j.inode)) + LineOf(SOURCE_KEY, Format(j.sourceID))
    + LineOf(STREAMS_KEY, "")
  }

  /** A job without offsets leaves no trace. */
  function PrintJob(j: Job): string {
    if j.offsets == [] then "" else PrintHead(j) + PrintStreams(j.offsets)
  }

  function Print(jobs: seq<Job>): string {
    if jobs == [] then "" else PrintJob(jobs[0]) + Print(jobs[1..])
  }

  // --------------------------------------------------------------- round trip

  /** What can be saved and found again. */
  ghost predicate GoodStream(kv: KV) {
    kv.stream != "" && ':' !in kv.stream && '\n' !in kv.stream && 0 <= kv.offset <= MAX_INT
  }

  ghost predicate GoodJob(j: Job) {
    && '\n' !in j.filename
    && j.inode <= MAX_UINT && j.sourceID <= MAX_UINT
    && (forall i :: 0 <= i < |j.offsets| ==> GoodStream(j.offsets[i]))
    && (forall i, k :: 0 <= i < k < |j.offsets| ==> j.offsets[i].stream != j.offsets[k].stream)
  }

  function StreamMap(s: seq<KV>): map<StreamName, int> {
    if s == [] then map[] else map[s[0].stream := s[0].offset] + StreamMap(s[1..])
  }

  /** Distinct source ids, among the jobs that have offsets. */
  ghost predicate DistinctSources(jobs: seq<Job>) {
    forall i, k :: 0 <= i < k < |jobs| && jobs[i].offsets != [] && jobs[k].offsets != [] ==>
      jobs[i].sourceID != jobs[k].sourceID
  }

  /** The table that the jobs stand for. */
  function TableOf(jobs: seq<Job>): Table {
    if jobs == [] then map[]
    else if jobs[0].offsets == [] then TableOf(jobs[1..])
    else map[jobs[0].sourceID := Entry(jobs[0].filename, StreamMap(jobs[0].offsets))] + TableOf(jobs[1..])
  }

  /** The first occurrence is where it was put. */
  lemma IndexAt(a: string, c: char, b: string)
    requires c !in a
    ensures Index(a + [c] + b, c) == |a|
  {
    var s := a + [c] + b;
    var i := Index(s, c);
    assert s[|a|] == c;
    assert forall k | 0 <= k < |a| :: s[k] == a[k];
    assert i <= |a| by {
      assert forall k | 0 <= k < i :: s[..i][k] == s[k];
    }
  }

  lemma LineRoundTrip(key: string, text: string, rest: string)
    requires '\n' !in key && '\n' !in text
    ensures ParseLine(LineOf(key, text) + rest, key) == Ok((text, rest))
  {
    var line := key + text;
    var content := LineOf(key, text) + rest;
    IndexAt(line, '\n', rest);
    assert content == line + ['\n'] + rest;
    assert content[..|line|] == line;
    assert content[|line| + 1..] == rest;
    assert line[..|key|] == key && line[|key|..] == text;
  }

  /** Exactly which texts have a line with the key in front. */
  lemma ParseLineIff(content: string, key: string, text: string, rest: string)
    requires '\n' !in key
    ensures ParseLine(content, key) == Ok((text, rest)) <==>
            '\n' !in text && content == key + text + ['\n'] + rest
  {
    if ParseLine(content, key) == Ok((text, rest)) {
      var n := Index(content, '\n');
      assert content == content[..n] + ['\n'] + content[n + 1..];
      assert content[..n] == key + text;
      assert forall i :: 0 <= i < |text| ==> text[i] == content[..n][|key| + i];
    }
    if '\n' !in text && content == key + text + ['\n'] + rest {
      LineRoundTrip(key, text, rest);
    }
  }

  /** A line too short for its key makes the error message slice it out of range. */
  lemma ParseLinePanicsIff(content: string, key: string)
    ensures ParseLine(content, key) == Panic <==>
            exists n :: 0 <= n < |content| && n < |key| && content[n] == '\n' && '\n' !in content[..n]
  {
    var n := Index(content, '\n');
    if m :| 0 <= m < |content| && m < |key| && content[m] == '\n' && '\n' !in content[..m] {
      assert forall i :: 0 <= i < m ==> content[i] == content[..m][i];
      assert n == m;
    }
  }

  lemma FormatIsPlain(n: nat)
    ensures '\n' !in Format(n) && ':' !in Format(n)
  {
    FormatRoundTrip(n);
  }

  lemma StreamLineRoundTrip(kv: KV)
    requires GoodStream(kv)
    ensures '\n' !in StreamLine(kv)
    ensures StreamLine(kv)[..4] == "    " && |StreamLine(kv)| >= 5
    ensures Index(StreamLine(kv), ':') == 4 + |kv.stream| && StreamLine(kv)[4..4 + |kv.stream|] == kv.stream
    ensures ParseStream(StreamLine(kv)) == Ok((kv.stream, kv.offset))
  {
    var line := StreamLine(kv);
    assert AsUint(kv.offset) == kv.offset;
    var digits := Format(kv.offset);
    FormatIsPlain(kv.offset);
    ParseFormatted(kv.offset);
    IndexAt("    " + kv.stream, ':', " " + digits);
    assert line[4 + |kv.stream| + 2..] == digits;
  }

  /** A negative offset is written as a number that the parser refuses. */
  lemma NegativeOffsetRefused(kv: KV)
    requires kv.stream != "" && ':' !in kv.stream && -(MAX_INT as int) - 1 <= kv.offset < 0
    ensures ParseStream(StreamLine(kv)) == Err
  {
    var line := StreamLine(kv);
    var n := AsUint(kv.offset);
    assert n == kv.offset + MAX_UINT + 1;
    FormatRoundTrip(n);
    assert IsDigit(Format(n)[0]);
    IndexAt("    " + kv.stream, ':', " " + Format(n));
    assert line[..4] == "    " && line[4..4 + |kv.stream|] == kv.stream;
    assert line[4 + |kv.stream| + 2..] == Format(n);
  }

  /** Numbers are written in base ten. */
  lemma FormatExample()
    ensures Format(0) == "0" && Format(1234) == "1234" && ParseInt("-90") == Ok(-90) && ParseInt("+7") == Ok(7)
  {
    assert Format(1) == "1" && Format(12) == "12" && Format(123) == "123";
    assert "-90"[1..] == "90" && "90"[..1] == "9" && "9"[..0] == "";
    assert "+7"[1..] == "7" && "7"[..0] == "";
    assert Decimal("9") == Some(9) && Decimal("90") == Some(90) && Decimal("7") == Some(7);
  }

  /** The lines of a job, as the file has them. */
  lemma PrintedLines(j: Job, kv: KV)
    ensures PrintHead(j)
         == ("- file: " + j.filename + "\n") + ("  inode: " + Format(j.inode) + "\n")
            + ("  source_id: " + Format(j.sourceID) + "\n") + ("  streams:" + "" + "\n")
    ensures LineOf("", StreamLine(kv)) == "    " + kv.stream + ": " + Format(AsUint(kv.offset)) + "\n"
  {
    var digits := Format(AsUint(kv.offset));
    assert [':'] + (" " + digits) == ": " + digits;
    Assoc("    " + kv.stream, [':'], " " + digits);
    Assoc("    " + kv.stream, ": ", digits);
    assert "" + StreamLine(kv) == StreamLine(kv);
  }

  /** Exactly which lines are the line of a stream: four blanks, a name that is not empty and has no
      colon, the colon, one character whatever it is, and a number. */
  ghost predicate IsStreamLine(line: string, name: StreamName, offset: int, c: char, digits: string) {
    && name != "" && ':' !in name && line == "    " + name + [':'] + [c] + digits
    && ParseInt(digits) == Ok(offset)
  }

  lemma StreamLineParts(line: string, name: StreamName, offset: int) returns (c: char, digits: string)
    requires ParseStream(line) == Ok((name, offset))
    ensures IsStreamLine(line, name, offset, c, digits)
  {
    var pos := Index(line, ':');
    assert 4 <= pos && pos + 2 <= |line|;
    c, digits := line[pos + 1], line[pos + 2..];
    assert name == line[4..pos];
    assert forall i :: 4 <= i < pos ==> line[i] == line[..pos][i] && line[i] == name[i - 4];
    assert line == line[..4] + line[4..pos] + [line[pos]] + [line[pos + 1]] + line[pos + 2..];
  }

  lemma StreamLineParses(line: string, name: StreamName, offset: int, c: char, digits: string)
    requires IsStreamLine(line, name, offset, c, digits)
    ensures ParseStream(line) == Ok((name, offset))
  {
    var front := "    " + name;
    assert line == front + [':'] + ([c] + digits);
    IndexAt(front, ':', [c] + digits);
    assert line[..4] == "    ";
    assert line[4..|front|] == name;
    assert line[|front| + 2..] == digits;
  }

  lemma ParseStreamIff(line: string, name: StreamName, offset: int)
    ensures ParseStream(line) == Ok((name, offset)) <==> exists c, digits :: IsStreamLine(line, name, offset, c, digits)
  {
    if ParseStream(line) == Ok((name, offset)) {
      var c, digits := StreamLineParts(line, name, offset);
      assert IsStreamLine(line, name, offset, c, digits);
    }
    if c, digits :| IsStreamLine(line, name, offset, c, digits) {
      StreamLineParses(line, name, offset, c, digits);
    }
  }

  /** A line that ends with the colon after the name is sliced out of range. */
  lemma ParseStreamPanicsIff(line: string)
    ensures ParseStream(line) == Panic <==> exists name :: name != "" && ':' !in name && line == "    " + name + [':']
  {
    var pos := Index(line, ':');
    if ParseStream(line) == Panic {
      assert line[..4] == "    " && pos > 4 && pos + 1 == |line|;
      var name := line[4..pos];
      assert forall i :: 4 <= i < pos ==> line[i] == line[..pos][i] && line[i] == name[i - 4];
      assert line == line[..4] + line[4..pos] + [line[pos]];
    }
    if name :| name != "" && ':' !in name && line == "    " + name + [':'] {
      IndexAt("    " + name, ':', "");
      assert line == "    " + name + [':'] + "";
      assert line[..4] == "    ";
    }
  }

  /** A stream named twice is refused, whatever its second offset is. */
  lemma RepeatIsRefused(kv: KV, more: string, streams: map<StreamName, int>)
    requires GoodStream(kv) && kv.stream in streams
    ensures StreamsLoop(LineOf("", StreamLine(kv)) + more, streams) == Err
  {
    var line := StreamLine(kv);
    var content := LineOf("", line) + more;
    StreamLineRoundTrip(kv);
    assert "" + line == line;
    assert content == line + ['\n'] + more;
    IndexAt(line, '\n', more);
    assert content[..|line|] == line;
    assert content[0] == line[..4][0] == ' ';
  }

  /** A name with a colon is cut at the first one. */
  lemma ColonCutsName(kv: KV)
    requires ':' in kv.stream
    ensures Index(StreamLine(kv), ':') == 4 + Index(kv.stream, ':') < 4 + |kv.stream|
  {
    var i := Index(kv.stream, ':');
    var front, back := "    " + kv.stream[..i], kv.stream[i + 1..] + [':'] + (" " + Format(AsUint(kv.offset)));
    assert kv.stream == kv.stream[..i] + [':'] + kv.stream[i + 1..];
    assert StreamLine(kv) == front + [':'] + back;
    IndexAt(front, ':', back);
  }

  lemma OtherOffsetNotRead(kv: KV)
    requires ':' !in kv.stream && !(0 <= kv.offset <= MAX_INT)
    ensures ParseStream(StreamLine(kv)) != Ok((kv.stream, kv.offset))
  {
    var n := AsUint(kv.offset);
    FormatRoundTrip(n);
    assert IsDigit(Format(n)[0]);
    IndexAt("    " + kv.stream, ':', " " + Format(n));
    assert StreamLine(kv)[4 + |kv.stream| + 2..] == Format(n);
  }

  /** Stream names are read from events. The line of a stream is read back exactly if the name is not
      empty and has no colon, and the offset is in range. */
  lemma StreamLineReadBackIff(kv: KV)
    requires '\n' !in kv.stream
    ensures ParseStream(StreamLine(kv)) == Ok((kv.stream, kv.offset)) <==> GoodStream(kv)
  {
    if GoodStream(kv) {
      StreamLineRoundTrip(kv);
    } else if ':' in kv.stream {
      ColonCutsName(kv);
    } else if kv.stream == "" {
      IndexAt("    ", ':', " " + Format(AsUint(kv.offset)));
      assert "    " + kv.stream == "    ";
    } else {
      OtherOffsetNotRead(kv);
    }
  }

  lemma StreamStep(kv: KV, more: string, streams: map<StreamName, int>)
    requires GoodStream(kv) && kv.stream !in streams
    ensures StreamsLoop(LineOf("", StreamLine(kv)) + more, streams)
            == StreamsLoop(more, streams[kv.stream := kv.offset])
  {
    var line := StreamLine(kv);
    var content := LineOf("", line) + more;
    StreamLineRoundTrip(kv);
    assert "" + line == line;
    assert content == line + ['\n'] + more;
    IndexAt(line, '\n', more);
    assert content[..|line|] == line && content[|line| + 1..] == more;
    assert content[0] == line[..4][0] == ' ';
  }

  ghost predicate Stops(rest: string) {
    rest == "" || rest[0] == '-'
  }

  lemma {:induction false} StreamMapKeys(s: seq<KV>)
    ensures forall n :: n in StreamMap(s) <==> exists i :: 0 <= i < |s| && s[i].stream == n
  {
    if s != [] {
      StreamMapKeys(s[1..]);
      forall n
        ensures n in StreamMap(s) <==> exists i :: 0 <= i < |s| && s[i].stream == n
      {
        if n in StreamMap(s[1..]) {
          var i :| 0 <= i < |s| - 1 && s[1..][i].stream == n;
          assert s[i + 1].stream == n;
        }
        if i :| 0 <= i < |s| && s[i].stream == n {
          if i > 0 {
            assert s[1..][i - 1].stream == n;
          }
        }
      }
    }
  }

  lemma {:induction false} StreamMapStep(s: seq<KV>, streams: map<StreamName, int>)
    requires s != [] && forall i, k :: 0 <= i < k < |s| ==> s[i].stream != s[k].stream
    ensures streams[s[0].stream := s[0].offset] + StreamMap(s[1..]) == streams + StreamMap(s)
  {
  }

  lemma {:induction false} StreamsRoundTrip(s: seq<KV>, rest: string, streams: map<StreamName, int>)
    requires forall i :: 0 <= i < |s| ==> GoodStream(s[i]) && s[i].stream !in streams
    requires forall i, k :: 0 <= i < k < |s| ==> s[i].stream != s[k].stream
    requires Stops(rest)
    ensures StreamsLoop(PrintStreams(s) + rest, streams) == Ok((rest, streams + StreamMap(s)))
    decreases |s|
  {
    if s == [] {
      assert PrintStreams(s) + rest == rest;
      assert streams + map[] == streams;
    } else {
      var line, later := LineOf("", StreamLine(s[0])), PrintStreams(s[1..]);
      Assoc(line, later, rest);
      StreamStep(s[0], later + rest, streams);
      StreamsRoundTrip(s[1..], rest, streams[s[0].stream := s[0].offset]);
      StreamMapStep(s, streams);
    }
  }

  /** Four lines and what follows them, as the parser meets them. */
  lemma FourLines(a: string, b: string, c: string, d: string, more: string)
    ensures a + b + c + d + more == a + (b + (c + (d + more)))
  {
  }

  ghost function WithStreams(r: Outcome<(string, map<StreamName, int>)>,
                             table: Table, source: nat, filename: string): Outcome<(string, Table)> {
    match r
    case Ok((rest, streams)) => Ok((rest, table[source := Entry(filename, streams)]))
    case Err => Err
    case Panic => Panic
  }

  lemma KeysArePlain()
    ensures '\n' !in FILE_KEY && '\n' !in INODE_KEY && '\n' !in SOURCE_KEY && '\n' !in STREAMS_KEY
  {
  }

  /** The head of an entry, whatever its texts are, and what follows it. */
  ghost predicate IsHead(content: string, filename: string, inode: string, source: string, more: string) {
    && '\n' !in filename && '\n' !in inode && '\n' !in source
    && content == LineOf(FILE_KEY, filename) + (LineOf(INODE_KEY, inode) + (LineOf(SOURCE_KEY, source) + more))
  }

  lemma HeadIs(content: string, c1: string, c2: string, more: string,
               filename: string, inode: string, source: string)
    requires c1 == LineOf(INODE_KEY, inode) + c2 && c2 == LineOf(SOURCE_KEY, source) + more
    ensures IsHead(content, filename, inode, source, more) <==>
            && ParseLine(content, FILE_KEY) == Ok((filename, c1))
            && ParseLine(c1, INODE_KEY) == Ok((inode, c2)) && ParseLine(c2, SOURCE_KEY) == Ok((source, more))
  {
    KeysArePlain();
    ParseLineIff(content, FILE_KEY, filename, c1);
    ParseLineIff(c1, INODE_KEY, inode, c2);
    ParseLineIff(c2, SOURCE_KEY, source, more);
  }

  /** Exactly which entries are read: a head with numbers, with a source that was not read before, and
      good streams. */
  ghost predicate IsEntry(content: string, table: Table, rest: string, filename: string, inode: string,
                          source: string, more: string, n: nat, streams: map<StreamName, int>) {
    && IsHead(content, filename, inode, source, more)
    && ParseUint(inode).Ok? && ParseUint(source) == Ok(n) && n !in table && ParseStreams(more) == Ok((rest, streams))
  }

  lemma EntryIsRead(content: string, table: Table, rest: string, filename: string, inode: string,
                    source: string, more: string, n: nat, streams: map<StreamName, int>)
    requires IsEntry(content, table, rest, filename, inode, source, more, n, streams)
    ensures ParseOne(content, table) == Ok((rest, table[n := Entry(filename, streams)]))
  {
    var c2 := LineOf(SOURCE_KEY, source) + more;
    HeadIs(content, LineOf(INODE_KEY, inode) + c2, c2, more, filename, inode, source);
  }

  lemma ReadIsEntry(content: string, table: Table, rest: string, table': Table)
      returns (filename: string, inode: string, source: string, more: string, n: nat, streams: map<StreamName, int>)
    requires ParseOne(content, table) == Ok((rest, table'))
    ensures IsEntry(content, table, rest, filename, inode, source, more, n, streams)
    ensures table' == table[n := Entry(filename, streams)]
  {
    KeysArePlain();
    var c1, c2;
    filename, c1 := ParseLine(content, FILE_KEY).value.0, ParseLine(content, FILE_KEY).value.1;
    inode, c2 := ParseLine(c1, INODE_KEY).value.0, ParseLine(c1, INODE_KEY).value.1;
    source, more := ParseLine(c2, SOURCE_KEY).value.0, ParseLine(c2, SOURCE_KEY).value.1;
    ParseLineIff(c1, INODE_KEY, inode, c2);
    ParseLineIff(c2, SOURCE_KEY, source, more);
    HeadIs(content, c1, c2, more, filename, inode, source);
    n, streams := ParseUint(source).value, ParseStreams(more).value.1;
  }

  lemma ParseOneBy(content: string, c1: string, c2: string, c3: string, more: string,
                   filename: string, inode: string, source: string, n: nat, table: Table)
    requires ParseLine(content, FILE_KEY) == Ok((filename, c1)) && ParseLine(c1, INODE_KEY) == Ok((inode, c2))
    requires ParseLine(c2, SOURCE_KEY) == Ok((source, c3)) && ParseLine(c3, STREAMS_KEY) == Ok(("", more))
    requires ParseUint(inode).Ok? && ParseUint(source) == Ok(n) && n !in table
    ensures ParseOne(content, table) == WithStreams(StreamsLoop(more, map[]), table, n, filename)
  {
  }

  /** `ParseOne` on four good lines: what is left is to read the streams. */
  lemma HeadParses(j: Job, more: string, table: Table)
    requires GoodJob(j) && j.sourceID !in table
    ensures ParseOne(PrintHead(j) + more, table)
         == WithStreams(StreamsLoop(more, map[]), table, j.sourceID, j.filename)
  {
    var a, b := LineOf(FILE_KEY, j.filename), LineOf(INODE_KEY, Format(j.inode));
    var c, d := LineOf(SOURCE_KEY, Format(j.sourceID)), LineOf(STREAMS_KEY, "");
    FourLines(a, b, c, d, more);
    HeadLines(j, more);
    ParseFormatted(j.inode);
    ParseFormatted(j.sourceID);
    ParseOneBy(a + (b + (c + (d + more))), b + (c + (d + more)), c + (d + more), d + more, more,
               j.filename, Format(j.inode), Format(j.sourceID), j.sourceID, table);
  }

  lemma HeadLines(j: Job, more: string)
    requires GoodJob(j)
    ensures var a, b := LineOf(FILE_KEY, j.filename), LineOf(INODE_KEY, Format(j.inode));
            var c, d := LineOf(SOURCE_KEY, Format(j.sourceID)), LineOf(STREAMS_KEY, "");
            && ParseLine(a + (b + (c + (d + more))), FILE_KEY) == Ok((j.filename, b + (c + (d + more))))
            && ParseLine(b + (c + (d + more)), INODE_KEY) == Ok((Format(j.inode), c + (d + more)))
            && ParseLine(c + (d + more), SOURCE_KEY) == Ok((Format(j.sourceID), d + more))
            && ParseLine(d + more, STREAMS_KEY) == Ok(("", more))
  {
    var b := LineOf(INODE_KEY, Format(j.inode));
    var c, d := LineOf(SOURCE_KEY, Format(j.sourceID)), LineOf(STREAMS_KEY, "");
    KeysArePlain();
    FormatIsPlain(j.inode);
    FormatIsPlain(j.sourceID);
    LineRoundTrip(FILE_KEY, j.filename, b + (c + (d + more)));
    LineRoundTrip(INODE_KEY, Format(j.inode), c + (d + more));
    LineRoundTrip(SOURCE_KEY, Format(j.sourceID), d + more);
    LineRoundTrip(STREAMS_KEY, "", more);
  }

  lemma JobRoundTrip(j: Job, rest: string, table: Table)
    requires GoodJob(j) && j.offsets != [] && j.sourceID !in table && Stops(rest)
    ensures ParseOne(PrintJob(j) + rest, table)
         == Ok((rest, table[j.sourceID := Entry(j.filename, StreamMap(j.offsets))]))
  {
    Assoc(PrintHead(j), PrintStreams(j.offsets), rest);
    HeadParses(j, PrintStreams(j.offsets) + rest, table);
    StreamsRoundTrip(j.offsets, rest, map[]);
    assert map[] + StreamMap(j.offsets) == StreamMap(j.offsets);
  }

  lemma {:induction false} PrintStops(jobs: seq<Job>)
    ensures Stops(Print(jobs))
  {
    if jobs != [] {
      PrintStops(jobs[1..]);
      if jobs[0].offsets != [] {
        assert FILE_KEY[0] == '-' && PrintHead(jobs[0])[0] == FILE_KEY[0];
      }
    }
  }

  lemma {:induction false} TableKeys(jobs: seq<Job>)
    ensures forall n :: n in TableOf(jobs) ==>
              exists i :: 0 <= i < |jobs| && jobs[i].offsets != [] && jobs[i].sourceID == n
  {
    if jobs != [] {
      TableKeys(jobs[1..]);
      forall n | n in TableOf(jobs)
        ensures exists i :: 0 <= i < |jobs| && jobs[i].offsets != [] && jobs[i].sourceID == n
      {
        if n in TableOf(jobs[1..]) {
          var i :| 0 <= i < |jobs| - 1 && jobs[1..][i].offsets != [] && jobs[1..][i].sourceID == n;
          assert jobs[i + 1].sourceID == n;
        } else {
          assert jobs[0].sourceID == n;
        }
      }
    }
  }

  /** The first job's source is not among the later ones. */
  lemma FirstIsNew(jobs: seq<Job>)
    requires jobs != [] && jobs[0].offsets != [] && DistinctSources(jobs)
    ensures forall i :: 0 <= i < |jobs| - 1 && jobs[1..][i].offsets != [] ==> jobs[1..][i].sourceID != jobs[0].sourceID
    ensures jobs[0].sourceID !in TableOf(jobs[1..])
  {
    forall i | 0 <= i < |jobs| - 1 && jobs[1..][i].offsets != []
      ensures jobs[1..][i].sourceID != jobs[0].sourceID
    {
      assert jobs[1..][i] == jobs[i + 1];
    }
    TableKeys(jobs[1..]);
  }

  ghost predicate GoodJobs(jobs: seq<Job>) {
    (forall i :: 0 <= i < |jobs| ==> GoodJob(jobs[i])) && DistinctSources(jobs)
  }

  ghost predicate NewTo(jobs: seq<Job>, table: Table) {
    forall i :: 0 <= i < |jobs| && jobs[i].offsets != [] ==> jobs[i].sourceID !in table
  }

  lemma LaterJobs(jobs: seq<Job>, table: Table, e: Entry)
    requires jobs != [] && GoodJobs(jobs) && NewTo(jobs, table)
    ensures GoodJob(jobs[0]) && GoodJobs(jobs[1..]) && NewTo(jobs[1..], table)
    ensures jobs[0].offsets != [] ==> NewTo(jobs[1..], table[jobs[0].sourceID := e])
    ensures jobs[0].offsets != [] ==> jobs[0].sourceID !in TableOf(jobs[1..]) && jobs[0].sourceID !in table
  {
    if jobs[0].offsets != [] {
      FirstIsNew(jobs);
    }
  }

  lemma ParseStep(j: Job, rest: string, table: Table)
    requires GoodJob(j) && j.offsets != [] && j.sourceID !in table && Stops(rest)
    ensures Parse(PrintJob(j) + rest, table)
         == Parse(rest, table[j.sourceID := Entry(j.filename, StreamMap(j.offsets))])
  {
    JobRoundTrip(j, rest, table);
    assert |PrintJob(j)| > 0;
  }

  lemma {:induction false} TableStep(jobs: seq<Job>, table: Table)
    requires jobs != [] && jobs[0].offsets != [] && jobs[0].sourceID !in TableOf(jobs[1..])
    ensures table[jobs[0].sourceID := Entry(jobs[0].filename, StreamMap(jobs[0].offsets))] + TableOf(jobs[1..])
         == table + TableOf(jobs)
  {
  }

  lemma {:induction false} TableRoundTrip(jobs: seq<Job>, table: Table)
    requires GoodJobs(jobs) && NewTo(jobs, table)
    ensures Parse(Print(jobs), table) == Ok(table + TableOf(jobs))
    decreases |jobs|
  {
    if jobs == [] {
      assert table + map[] == table;
    } else {
      var e := Entry(jobs[0].filename, StreamMap(jobs[0].offsets));
      LaterJobs(jobs, table, e);
      if jobs[0].offsets == [] {
        assert "" + Print(jobs[1..]) == Print(jobs[1..]);
        TableRoundTrip(jobs[1..], table);
      } else {
        PrintStops(jobs[1..]);
        ParseStep(jobs[0], Print(jobs[1..]), table);
        TableRoundTrip(jobs[1..], table[jobs[0].sourceID := e]);
        TableStep(jobs, table);
      }
    }
  }

  /** Parsing what was saved gives back, for every job with offsets and whatever the order of
      the jobs, its file name and its offset of every stream, and nothing else. */
  lemma RoundTrip(jobs: seq<Job>)
    requires GoodJobs(jobs)
    ensures Parse(Print(jobs), map[]) == Ok(TableOf(jobs))
  {
    TableRoundTrip(jobs, map[]);
    assert map[] + TableOf(jobs) == TableOf(jobs);
  }

  lemma {:induction false} StreamMapAt(s: seq<KV>, i: nat)
    requires i < |s| && forall a, b :: 0 <= a < b < |s| ==> s[a].stream != s[b].stream
    ensures s[i].stream in StreamMap(s) && StreamMap(s)[s[i].stream] == s[i].offset
  {
    if i > 0 {
      StreamMapAt(s[1..], i - 1);
    } else {
      StreamMapKeys(s[1..]);
      forall k | 0 <= k < |s| - 1
        ensures s[1..][k].stream != s[0].stream
      {
        assert s[1..][k] == s[k + 1];
      }
    }
  }

  lemma {:induction false} TableAt(jobs: seq<Job>, i: nat)
    requires i < |jobs| && jobs[i].offsets != [] && DistinctSources(jobs)
    ensures jobs[i].sourceID in TableOf(jobs)
    ensures TableOf(jobs)[jobs[i].sourceID] == Entry(jobs[i].filename, StreamMap(jobs[i].offsets))
  {
    if i > 0 {
      TableAt(jobs[1..], i - 1);
      TableKeys(jobs[1..]);
    } else {
      FirstIsNew(jobs);
    }
  }

  /** What the table of the round trip says of one job and one of its streams. */
  lemma TableIsExact(jobs: seq<Job>, i: nat, k: nat)
    requires GoodJobs(jobs)
    requires i < |jobs| && k < |jobs[i].offsets|
    ensures jobs[i].sourceID in TableOf(jobs)
    ensures var e := TableOf(jobs)[jobs[i].sourceID];
            && e.filename == jobs[i].filename
            && jobs[i].offsets[k].stream in e.streams
            && e.streams[jobs[i].offsets[k].stream] == jobs[i].offsets[k].offset
            && (forall n :: n in e.streams ==> exists x :: 0 <= x < |jobs[i].offsets| && jobs[i].offsets[x].stream == n)
    ensures forall n :: n in TableOf(jobs) ==>
              exists x :: 0 <= x < |jobs| && jobs[x].offsets != [] && jobs[x].sourceID == n
  {
    TableKeys(jobs);
    TableAt(jobs, i);
    StreamMapAt(jobs[i].offsets, k);
    StreamMapKeys(jobs[i].offsets);
  }

  // -------------------------------------------------------------- the methods

  method SaveStreams(s: seq<KV>) returns (buf: string)
    ensures buf == PrintStreams(s)
  {
    buf := "";
    var i := 0;
    assert s[0..] == s;
    while i < |s|
      invariant 0 <= i <= |s|
      invariant PrintStreams(s) == buf + PrintStreams(s[i..])
    {
      var line := LineOf("", StreamLine(s[i]));
      assert s[i..][1..] == s[i + 1..];
      Assoc(buf, line, PrintStreams(s[i + 1..]));
      buf := buf + line;
      i := i + 1;
    }
  }

  /** The buffer that `save` builds. */
  method Save(jobs: seq<Job>) returns (buf: string)
    ensures buf == Print(jobs)
  {
    buf := "";
    var n := 0;
    assert jobs[0..] == jobs;
    while n < |jobs|
      invariant 0 <= n <= |jobs|
      invariant Print(jobs) == buf + Print(jobs[n..])
    {
      var text := SaveJob(jobs[n]);
      assert jobs[n..][1..] == jobs[n + 1..];
      Assoc(buf, text, Print(jobs[n + 1..]));
      buf := buf + text;
      n := n + 1;
    }
  }

  method SaveJob(job: Job) returns (buf: string)
    ensures buf == PrintJob(job)
  {
    buf := "";
    if job.offsets == [] {
      return;
    }
    buf := LineOf(FILE_KEY, job.filename);
    buf := buf + LineOf(INODE_KEY, Format(job.inode));
    buf := buf + LineOf(SOURCE_KEY, Format(job.sourceID));
    buf := buf + LineOf(STREAMS_KEY, "");
    var streams := SaveStreams(job.offsets);
    buf := buf + streams;
  }

  /** The loop over the stream lines of one entry. */
  method LoadStreams(content: string) returns (r: Outcome<(string, map<StreamName, int>)>)
    ensures r == ParseStreams(content)
  {
    var head := ParseLine(content, STREAMS_KEY);
    if !head.Ok? {
      return if head.Err? then Err else Panic;
    }
    var rest := head.value.1;
    var streams: map<StreamName, int> := map[];
    while rest != "" && rest[0] != '-'
      invariant ParseStreams(content) == StreamsLoop(rest, streams)
      decreases |rest|
    {
      var linePos := Index(rest, '\n');
      if linePos < 0 {
        return Err;
      }
      var line := rest[..linePos];
      if Repeats(line, streams) {
        return Err;
      }
      var one := ParseStream(line);
      if !one.Ok? {
        return if one.Err? then Err else Panic;
      }
      rest, streams := rest[linePos + 1..], streams[one.value.0 := one.value.1];
    }
    return Ok((rest, streams));
  }

  /** The loop over the file's entries. */
  method Load(content: string) returns (r: Outcome<Table>)
    ensures r == Parse(content, map[])
  {
    var rest, table := content, map[];
    while rest != ""
      invariant Parse(content, map[]) == Parse(rest, table)
      decreases |rest|
    {
      var one := ParseOne(rest, table);
      if !one.Ok? {
        return if one.Err? then Err else Panic;
      }
      rest, table := one.value.0, one.value.1;
    }
    return Ok(table);
  }
}
