/** QR transfer frames: printing, parsing, and putting scanned frames back together. */
module ConfigQr {
  import opened Optional
  import opened Decimals

  const PREFIX := "BJUTALQR1"
  const FRAME_SIZE := 600
  const MAX_FRAMES := 128
  const MAX_AGE_MS := 600_000

  // The digest stands for hexadecimal SHA-256, the envelope test for the check of the decoded backup.
  type Digest = string -> string
  type Envelope = string -> bool

  predicate Printable(s: string)
    ensures Printable(s) <==> forall i :: 0 <= i < |s| ==> 0x20 <= s[i] as int <= 0x7e
  {
    forall i :: 0 <= i < |s| ==> ' ' <= s[i] <= '~'
  }

  predicate IsHex(c: char)
    ensures IsHex(c) <==> c in "0123456789abcdef"
  {
    ('a' <= c <= 'f') || ('0' <= c <= '9')
  }

  predicate HexId(s: string)
    ensures HexId(s) <==> |s| == 64 && forall c :: c in s ==> c in "0123456789abcdef"
  {
    |s| == 64 && forall i :: 0 <= i < 64 ==> IsHex(s[i])
  }

  datatype Frame = Frame(id: string, index: nat, total: nat, data: string)

  // ---------- the printed form ----------

  function Print(f: Frame): string {
    PREFIX + ":" + f.id + ":" + Decimal(f.index) + ":" + Decimal(f.total) + ":" + f.data
  }

  predicate WellFormed(f: Frame) {
    HexId(f.id) && 1 <= f.index <= 999 && 1 <= f.total <= 999 && f.data != "" && Printable(f.data)
  }

  // ---------- the parser ----------

  // How many of the first three characters are digits before another character comes.
  function DigitRun(s: string, limit: nat): (k: nat)
    ensures k <= |s| && k <= limit
    ensures AllDigits(s[..k])
    ensures k < limit && k < |s| ==> !IsDigit(s[k])
  {
    if limit == 0 || s == "" || !IsDigit(s[0]) then 0 else 1 + DigitRun(s[1..], limit - 1)
  }

  function ReadNumber(s: string): Option<(nat, string)> {
    var k := DigitRun(s, 3);
    if k == 0 || s[0] == '0' || k == |s| || s[k] != ':' then None
    else Some((Value(s[..k]), s[k + 1..]))
  }

  function Parse(s: string): Option<Frame> {
    var head := PREFIX + ":";
    if |s| < 75 || s[..10] != head || !HexId(s[10..74]) || s[74] != ':' then None else
      match ReadNumber(s[75..])
      case None => None
      case Some((index, rest)) =>
        match ReadNumber(rest)
        case None => None
        case Some((total, data)) =>
          if data == "" || !Printable(data) then None else Some(Frame(s[10..74], index, total, data))
  }

  lemma {:induction false} RunOf(digits: string, rest: string, limit: nat)
    requires AllDigits(digits) && |digits| <= limit
    requires rest != "" && !IsDigit(rest[0])
    ensures DigitRun(digits + rest, limit) == |digits|
    decreases |digits|
  {
    if digits == "" {
      assert digits + rest == rest;
    } else {
      assert (digits + rest)[1..] == digits[1..] + rest;
      RunOf(digits[1..], rest, limit - 1);
    }
  }

  lemma ReadPrinted(n: nat, rest: string)
    requires 1 <= n <= 999
    ensures ReadNumber(Decimal(n) + ":" + rest) == Some((n, rest))
  {
    var d := Decimal(n);
    ValueOfDecimal(n);
    DecimalLength(n, 3);
    assert Power10(3) == 1000;
    assert d + ":" + rest == d + (":" + rest);
    RunOf(d, ":" + rest, 3);
    assert (d + ":" + rest)[..|d|] == d;
    assert (d + ":" + rest)[|d| + 1..] == rest;
  }

  lemma NumeralBounds(d: string)
    requires AllDigits(d) && 1 <= |d| <= 3 && d[0] != '0'
    ensures 1 <= Value(d) <= 999 && Decimal(Value(d)) == d
  {
    DecimalOfValue(d);
    DecimalLength(Value(d), 3);
    assert Power10(3) == 1000;
  }

  lemma SplitsAtColon(s: string, k: nat)
    requires k < |s| && s[k] == ':'
    ensures s == s[..k] + ":" + s[k + 1..]
  {}

  lemma ReadIsPrinted(s: string)
    ensures ReadNumber(s).Some? ==>
              var (n, rest) := ReadNumber(s).value; 1 <= n <= 999 && s == Decimal(n) + ":" + rest
  {
    var k := DigitRun(s, 3);
    if k > 0 && s[0] != '0' && k < |s| && s[k] == ':' {
      NumeralBounds(s[..k]);
      SplitsAtColon(s, k);
    }
  }

  // The parser accepts exactly the printed forms of well-formed frames and gives back the frame, so no text has two
  // readings, whatever colons the data holds.
  lemma ParsesExactlyPrinted(s: string, f: Frame)
    ensures Parse(s) == Some(f) <==> WellFormed(f) && s == Print(f)
  {
    if Parse(s) == Some(f) {
      ParsedIsPrinted(s);
    }
    if WellFormed(f) && s == Print(f) {
      PrintedParses(f);
    }
  }

  lemma HeadSplits(s: string)
    requires |s| >= 75 && s[74] == ':'
    ensures s == s[..10] + s[10..74] + ":" + s[75..]
  {
    assert s[..74] == s[..10] + s[10..74];
    SplitsAtColon(s, 74);
  }

  lemma TailJoins(head: string, index: string, total: string, data: string)
    ensures head + index + ":" + total + ":" + data == head + (index + ":" + (total + ":" + data))
  {
    var tail := total + ":" + data;
    assert index + ":" + total + ":" + data == index + ":" + tail;
    assert head + (index + ":" + total + ":" + data) == head + index + ":" + total + ":" + data;
  }

  lemma ParsedIsPrinted(s: string)
    requires Parse(s).Some?
    ensures WellFormed(Parse(s).value) && s == Print(Parse(s).value)
  {
    ReadIsPrinted(s[75..]);
    var (index, rest) := ReadNumber(s[75..]).value;
    ReadIsPrinted(rest);
    HeadSplits(s);
    var f := Parse(s).value;
    TailJoins(PREFIX + ":" + f.id + ":", Decimal(f.index), Decimal(f.total), f.data);
  }

  lemma HeadReads(id: string, tail: string)
    requires |id| == 64
    ensures var s := PREFIX + ":" + id + ":" + tail;
            |s| >= 75 && s[..10] == PREFIX + ":" && s[10..74] == id && s[74] == ':' && s[75..] == tail
  {}

  lemma PrintedParses(f: Frame)
    requires WellFormed(f)
    ensures Parse(Print(f)) == Some(f)
  {
    var last := Decimal(f.total) + ":" + f.data;
    TailJoins(PREFIX + ":" + f.id + ":", Decimal(f.index), Decimal(f.total), f.data);
    HeadReads(f.id, Decimal(f.index) + ":" + last);
    ReadPrinted(f.index, last);
    ReadPrinted(f.total, f.data);
  }

  // ---------- encoding ----------

  predicate Encodable(payload: string) {
    payload != "" && |payload| <= FRAME_SIZE * MAX_FRAMES && Printable(payload)
  }

  function FrameCount(payload: string): nat {
    (|payload| + FRAME_SIZE - 1) / FRAME_SIZE
  }

  function Slice(payload: string, i: nat): string
    requires i < FrameCount(payload)
  {
    var end := (i + 1) * FRAME_SIZE;
    payload[i * FRAME_SIZE..if end < |payload| then end else |payload|]
  }

  function FrameAt(payload: string, digest: Digest, i: nat): Frame
    requires i < FrameCount(payload)
  {
    Frame(digest(payload), i + 1, FrameCount(payload), Slice(payload, i))
  }

  function EncodeConfigQr(payload: string, digest: Digest): Option<seq<string>> {
    if !Encodable(payload) then None
    else Some(seq(FrameCount(payload), i requires 0 <= i < FrameCount(payload) => Print(FrameAt(payload, digest, i))))
  }

  // A payload is encoded exactly if it has between 1 and 128 * 600 characters, all printable, into as many frames of
  // 600 characters as it takes, only the last of which may be shorter.
  lemma EncodesIff(payload: string, digest: Digest)
    ensures EncodeConfigQr(payload, digest).Some? <==>
              1 <= |payload| <= 76_800 && forall i :: 0 <= i < |payload| ==> 0x20 <= payload[i] as int <= 0x7e
    ensures EncodeConfigQr(payload, digest).Some? ==>
              var n := |EncodeConfigQr(payload, digest).value|;
              && 1 <= n <= 128 && n == FrameCount(payload)
              && (forall i :: 0 <= i < n - 1 ==> |Slice(payload, i)| == 600)
              && |Slice(payload, n - 1)| == |payload| - 600 * (n - 1) <= 600
  {}

  // Every frame of an encodable payload is well formed, short enough to scan, and read back as it was made.
  lemma FramesReadBack(payload: string, digest: Digest, i: nat)
    requires Encodable(payload) && HexId(digest(payload)) && i < FrameCount(payload)
    ensures 1 <= FrameCount(payload) <= MAX_FRAMES
    ensures EncodeConfigQr(payload, digest).value[i] == Print(FrameAt(payload, digest, i))
    ensures Parse(Print(FrameAt(payload, digest, i))) == Some(FrameAt(payload, digest, i))
    ensures 1 <= |Slice(payload, i)| <= FRAME_SIZE
    ensures |Print(FrameAt(payload, digest, i))| <= 700
  {
    var f := FrameAt(payload, digest, i);
    PrintedParses(f);
    DecimalLength(f.index, 3);
    DecimalLength(f.total, 3);
    assert Power10(3) == 1000;
  }

  function Join(payload: string, n: nat): string
    requires n <= FrameCount(payload)
  {
    if n == 0 then "" else Join(payload, n - 1) + Slice(payload, n - 1)
  }

  lemma {:induction false} SlicesJoin(payload: string, n: nat)
    requires n <= FrameCount(payload)
    ensures Join(payload, n) == payload[..if n * FRAME_SIZE < |payload| then n * FRAME_SIZE else |payload|]
  {
    if n > 0 { SlicesJoin(payload, n - 1); }
  }

  // ---------- the collector ----------

  datatype Scan = Scan(id: string, total: nat, started: int, frames: map<nat, string>)

  const FRESH := Scan("", 0, 0, map[])

  datatype Reason = TooLong | NotAFrame | BadFormat | TimedOut | OtherBackup | Conflict | BadDigest | BadEnvelope

  datatype Outcome = Rejected(reason: Reason) | Received(received: nat, total: nat, payload: Option<string>)

  function Assemble(frames: map<nat, string>, n: nat): string {
    if n == 0 then "" else Assemble(frames, n - 1) + if n in frames then frames[n] else ""
  }

  // What a collector works with: the frame parser, the digest and the envelope test.
  datatype Tools = Tools(parse: string -> Option<Frame>, digest: Digest, envelope: Envelope)

  // The checks made before anything is stored.
  function Refusal(st: Scan, text: string, now: int, tools: Tools): Option<Reason> {
    if |text| > FRAME_SIZE + 100 then Some(TooLong) else
      match tools.parse(text)
      case None => Some(NotAFrame)
      case Some(f) =>
        if f.total > MAX_FRAMES || f.index > f.total || |f.data| > FRAME_SIZE then Some(BadFormat)
        else if st.started != 0 && now - st.started > MAX_AGE_MS then Some(TimedOut)
        else if st.id != "" && (f.id != st.id || f.total != st.total) then Some(OtherBackup)
        else if f.index in st.frames && st.frames[f.index] != f.data then Some(Conflict)
        else None
  }

  // The checks in their order.
  const CHECKS := [TooLong, NotAFrame, BadFormat, TimedOut, OtherBackup, Conflict]

  // What each check asks of a scan that passed the ones before it.
  predicate Passes(st: Scan, text: string, f: Option<Frame>, now: int, check: Reason)
    requires check in [BadFormat, TimedOut, OtherBackup, Conflict] ==> f.Some?
  {
    match check
    case TooLong => |text| <= 700
    case NotAFrame => f.Some?
    case BadFormat => f.value.index <= f.value.total <= 128 && |f.value.data| <= 600
    case TimedOut => st.started == 0 || now <= st.started + 600_000
    case OtherBackup => st.id == "" || (st.id == f.value.id && st.total == f.value.total)
    case Conflict => f.value.index in st.frames ==> st.frames[f.value.index] == f.value.data
    case _ => true
  }

  // Whether the first n checks pass.
  predicate PassesFirst(st: Scan, text: string, f: Option<Frame>, now: int, n: nat) {
    && (n > 0 ==> Passes(st, text, f, now, TooLong))
    && (n > 1 ==> Passes(st, text, f, now, NotAFrame))
    && (n > 2 ==> Passes(st, text, f, now, BadFormat))
    && (n > 3 ==> Passes(st, text, f, now, TimedOut))
    && (n > 4 ==> Passes(st, text, f, now, OtherBackup))
    && (n > 5 ==> Passes(st, text, f, now, Conflict))
  }

  // A scan is refused for the first check that it does not pass, and accepted if it passes all six.
  lemma RefusedForFirst(st: Scan, text: string, now: int, tools: Tools, i: nat)
    requires i < 6
    ensures var refusal, f := Refusal(st, text, now, tools), tools.parse(text);
            && (refusal.None? <==> PassesFirst(st, text, f, now, 6))
            && (refusal == Some(CHECKS[i]) <==>
                  PassesFirst(st, text, f, now, i) && !PassesFirst(st, text, f, now, i + 1))
  {
    assert i == 0 || i == 1 || i == 2 || i == 3 || i == 4 || i == 5;
    assert CHECKS[0] == TooLong && CHECKS[1] == NotAFrame && CHECKS[2] == BadFormat;
    assert CHECKS[3] == TimedOut && CHECKS[4] == OtherBackup && CHECKS[5] == Conflict;
  }

  function Store(st: Scan, f: Frame, now: int): Scan {
    var begun := if st.id == "" then st.(id := f.id, total := f.total, started := now) else st;
    begun.(frames := begun.frames[f.index := f.data])
  }

  function Judge(st: Scan, f: Frame, tools: Tools): Outcome {
    if |st.frames| != f.total then Received(|st.frames|, f.total, None) else
      var payload := Assemble(st.frames, f.total);
      if tools.digest(payload) != f.id then Rejected(BadDigest)
      else if !tools.envelope(payload) then Rejected(BadEnvelope)
      else Received(|st.frames|, f.total, Some(payload))
  }

  function Receive(st: Scan, text: string, now: int, tools: Tools): (Scan, Outcome) {
    match Refusal(st, text, now, tools)
    case Some(reason) => (st, Rejected(reason))
    case None =>
      var f := tools.parse(text).value;
      var next := Store(st, f, now);
      (next, Judge(next, f, tools))
  }

  class ConfigQrCollector {
    var id: string
    var total: nat
    var started: int
    var frames: map<nat, string>

    ghost function State(): Scan
      reads this
    {
      Scan(id, total, started, frames)
    }

    constructor ()
      ensures State() == FRESH
    {
      id, total, started, frames := "", 0, 0, map[];
    }

    method Add(text: string, now: int, digest: Digest, envelope: Envelope) returns (outcome: Outcome)
      modifies this
      ensures (State(), outcome) == Receive(old(State()), text, now, Tools(Parse, digest, envelope))
    {
      if |text| > FRAME_SIZE + 100 { return Rejected(TooLong); }
      var matched := Parse(text);
      if matched.None? { return Rejected(NotAFrame); }
      var f := matched.value;
      if f.total > MAX_FRAMES || f.index > f.total || |f.data| > FRAME_SIZE { return Rejected(BadFormat); }
      if started != 0 && now - started > MAX_AGE_MS { return Rejected(TimedOut); }
      if id != "" && (f.id != id || f.total != total) { return Rejected(OtherBackup); }
      if f.index in frames && frames[f.index] != f.data { return Rejected(Conflict); }
      if id == "" {
        id, total, started := f.id, f.total, now;
      }
      frames := frames[f.index := f.data];
      if |frames| != f.total { return Received(|frames|, f.total, None); }
      var payload := AssembleFrames(frames, f.total);
      if digest(payload) != f.id { return Rejected(BadDigest); }
      if !envelope(payload) { return Rejected(BadEnvelope); }
      outcome := Received(|frames|, f.total, Some(payload));
    }
  }

  method AssembleFrames(frames: map<nat, string>, n: nat) returns (payload: string)
    ensures payload == Assemble(frames, n)
  {
    payload := "";
    for i := 0 to n
      invariant payload == Assemble(frames, i)
    {
      payload := payload + if i + 1 in frames then frames[i + 1] else "";
    }
  }
}
