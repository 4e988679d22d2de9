/** What whole scanning sessions keep, whatever is scanned and in whatever order. */
module ConfigQrRuns {
  import opened Optional
  import opened ConfigQr

  datatype Scanned = Scanned(text: string, now: int)

  // The collector after a session, and the answer to its k-th scan.
  function After(session: seq<Scanned>, tools: Tools): Scan {
    if session == [] then FRESH else
      var n := |session| - 1;
      Receive(After(session[..n], tools), session[n].text, session[n].now, tools).0
  }

  function Answer(session: seq<Scanned>, k: nat, tools: Tools): Outcome
    requires k < |session|
  {
    Receive(After(session[..k], tools), session[k].text, session[k].now, tools).1
  }

  // The tools the program uses, for a given digest and envelope test.
  function RealTools(digest: Digest, envelope: Envelope): Tools {
    Tools(Parse, digest, envelope)
  }

  // ---------- any session ----------

  ghost predicate SoundParser(tools: Tools) {
    forall text :: tools.parse(text).Some? ==> WellFormed(tools.parse(text).value)
  }

  lemma RealParserIsSound(digest: Digest, envelope: Envelope)
    ensures SoundParser(RealTools(digest, envelope))
  {
    forall text | Parse(text).Some? ensures WellFormed(Parse(text).value) { ParsedIsPrinted(text); }
  }

  ghost predicate Valid(st: Scan) {
    && (st.id == "" <==> st.frames == map[])
    && (forall i :: i in st.frames ==> 1 <= i <= st.total)
    && st.total <= MAX_FRAMES
  }

  // A later state extends an earlier one: an opened backup stays the one being scanned and no slot is rewritten.
  ghost predicate Extends(st: Scan, later: Scan) {
    && (st.id != "" ==> later.id == st.id && later.total == st.total && later.started == st.started)
    && (forall i :: i in st.frames ==> i in later.frames && later.frames[i] == st.frames[i])
  }

  // A scan refused before the write leaves the collector as it was; any other stores its frame, in a slot of the
  // backup being scanned that was empty or held the same data.
  lemma ReceiveKeeps(st: Scan, text: string, now: int, tools: Tools)
    requires Valid(st) && SoundParser(tools)
    ensures var (next, outcome) := Receive(st, text, now, tools);
            && Valid(next) && Extends(st, next)
            && (outcome.Rejected? && outcome.reason !in {BadDigest, BadEnvelope} ==> next == st)
            && (outcome.Received? || outcome.reason in {BadDigest, BadEnvelope} ==>
                  tools.parse(text).Some? && next.id == tools.parse(text).value.id
                  && next.frames == st.frames[tools.parse(text).value.index := tools.parse(text).value.data])
  {}

  lemma ReceiveNames(st: Scan, text: string, now: int, tools: Tools)
    requires Valid(st) && SoundParser(tools)
    requires Receive(st, text, now, tools).1.Received?
    ensures var (next, outcome) := Receive(st, text, now, tools);
            && tools.parse(text).Some? && tools.parse(text).value.id == next.id && next.id != ""
            && (outcome.payload.Some? ==>
                  tools.digest(outcome.payload.value) == next.id && tools.envelope(outcome.payload.value))
  {}

  lemma {:induction false} SessionValid(session: seq<Scanned>, tools: Tools)
    requires SoundParser(tools)
    ensures Valid(After(session, tools))
  {
    if session != [] {
      var n := |session| - 1;
      SessionValid(session[..n], tools);
      ReceiveKeeps(After(session[..n], tools), session[n].text, session[n].now, tools);
    }
  }

  // Whatever is scanned, slots stay within the backup's range, are written once, and its identity never changes.
  lemma {:induction false} SessionExtends(session: seq<Scanned>, k: nat, tools: Tools)
    requires SoundParser(tools) && k <= |session|
    ensures Valid(After(session, tools))
    ensures Extends(After(session[..k], tools), After(session, tools))
    decreases |session|
  {
    SessionValid(session, tools);
    if k == |session| {
      assert session[..k] == session;
    } else {
      var n := |session| - 1;
      assert session[..n][..k] == session[..k];
      SessionExtends(session[..n], k, tools);
      ReceiveKeeps(After(session[..n], tools), session[n].text, session[n].now, tools);
    }
  }

  // An accepted scan, or a payload handed out, carries the identity that the whole session ends with.
  lemma AnswerNamesBackup(session: seq<Scanned>, k: nat, tools: Tools)
    requires SoundParser(tools)
    requires k < |session| && Answer(session, k, tools).Received?
    ensures tools.parse(session[k].text).Some?
    ensures tools.parse(session[k].text).value.id == After(session, tools).id
    ensures var p := Answer(session, k, tools).payload;
            p.Some? ==> tools.digest(p.value) == After(session, tools).id && tools.envelope(p.value)
  {
    SessionValid(session[..k], tools);
    assert session[..k + 1][..k] == session[..k];
    ReceiveNames(After(session[..k], tools), session[k].text, session[k].now, tools);
    SessionExtends(session, k + 1, tools);
  }

  // Backups cannot be mixed: once one frame of an encoded backup is accepted anywhere in a session, every payload
  // handed out in that session, before or after it, is that backup, provided no other text shares its digest.
  lemma NoMixing(session: seq<Scanned>, j: nat, k: nat, digest: Digest, envelope: Envelope, original: string, i: nat)
    requires Encodable(original) && HexId(digest(original)) && i < FrameCount(original)
    requires forall other :: digest(other) == digest(original) ==> other == original
    requires j < |session| && k < |session|
    requires session[j].text == EncodeConfigQr(original, digest).value[i]
    requires Answer(session, j, RealTools(digest, envelope)).Received?
    requires Answer(session, k, RealTools(digest, envelope)).Received?
    requires Answer(session, k, RealTools(digest, envelope)).payload.Some?
    ensures Answer(session, k, RealTools(digest, envelope)).payload == Some(original)
  {
    var tools := RealTools(digest, envelope);
    RealParserIsSound(digest, envelope);
    FramesReadBack(original, digest, i);
    AnswerNamesBackup(session, j, tools);
    AnswerNamesBackup(session, k, tools);
  }

  // ---------- scans that do not belong ----------

  // This scan opened the backup: it was accepted, and none before it was.
  ghost predicate Opens(session: seq<Scanned>, j: nat, tools: Tools) {
    j < |session| && After(session[..j], tools).id == "" && Answer(session, j, tools).Received?
  }

  lemma OpenedBy(session: seq<Scanned>, j: nat, tools: Tools)
    requires SoundParser(tools) && Opens(session, j, tools)
    ensures tools.parse(session[j].text).Some?
    ensures var f, a := tools.parse(session[j].text).value, After(session[..j + 1], tools);
            && a.id == f.id != "" && a.total == f.total && a.started == session[j].now
            && f.index in a.frames && a.frames[f.index] == f.data
  {
    SessionValid(session[..j], tools);
    assert session[..j + 1][..j] == session[..j];
    ReceiveNames(After(session[..j], tools), session[j].text, session[j].now, tools);
  }

  lemma LaterExtends(session: seq<Scanned>, j: nat, k: nat, tools: Tools)
    requires SoundParser(tools) && j < k <= |session|
    ensures Valid(After(session[..k], tools)) && Extends(After(session[..j + 1], tools), After(session[..k], tools))
  {
    assert session[..k][..j + 1] == session[..j + 1];
    SessionExtends(session[..k], j + 1, tools);
  }

  // A scan that is refused is answered so and changes nothing.
  lemma RefusedChangesNothing(session: seq<Scanned>, k: nat, tools: Tools)
    requires k < |session| && Refusal(After(session[..k], tools), session[k].text, session[k].now, tools).Some?
    ensures Answer(session, k, tools).Rejected? && After(session[..k + 1], tools) == After(session[..k], tools)
  {
    assert session[..k + 1][..k] == session[..k];
  }

  // Too late for this backup, or a frame of another one.
  predicate Strange(id: string, total: nat, started: int, f: Option<Frame>, now: int) {
    (started != 0 && now - started > 600_000) || (f.Some? && (f.value.id != id || f.value.total != total))
  }

  lemma StrangeIsRefused(st: Scan, text: string, now: int, tools: Tools)
    requires st.id != "" && Strange(st.id, st.total, st.started, tools.parse(text), now)
    ensures Refusal(st, text, now, tools).Some?
  {}

  // Since the scan that opened a backup, none is accepted that comes more than ten minutes after it, and none of
  // another backup; and they change nothing. Only a backup opened at the clock's zero has no time limit.
  lemma StrangerIsRefused(session: seq<Scanned>, j: nat, k: nat, tools: Tools)
    requires SoundParser(tools) && Opens(session, j, tools) && j < k < |session|
    requires tools.parse(session[j].text).Some? ==>
               var f := tools.parse(session[j].text).value;
               Strange(f.id, f.total, session[j].now, tools.parse(session[k].text), session[k].now)
    ensures Answer(session, k, tools).Rejected?
    ensures After(session[..k + 1], tools) == After(session[..k], tools)
  {
    OpenedBy(session, j, tools);
    LaterExtends(session, j, k, tools);
    StrangeIsRefused(After(session[..k], tools), session[k].text, session[k].now, tools);
    RefusedChangesNothing(session, k, tools);
  }

  lemma ContradictionRefused(st: Scan, text: string, now: int, tools: Tools, index: nat, data: string)
    requires index in st.frames && st.frames[index] == data
    requires tools.parse(text).Some? && tools.parse(text).value.index == index && tools.parse(text).value.data != data
    ensures Refusal(st, text, now, tools).Some?
  {}

  lemma AcceptedIsStored(session: seq<Scanned>, j: nat, tools: Tools)
    requires SoundParser(tools) && j < |session| && Answer(session, j, tools).Received?
    ensures tools.parse(session[j].text).Some?
    ensures var f, frames := tools.parse(session[j].text).value, After(session[..j + 1], tools).frames;
            f.index in frames && frames[f.index] == f.data
  {
    SessionValid(session[..j], tools);
    ReceiveKeeps(After(session[..j], tools), session[j].text, session[j].now, tools);
    assert session[..j + 1][..j] == session[..j];
  }

  // Nor is one accepted that says something else for a frame already accepted.
  lemma ContradictionIsRefused(session: seq<Scanned>, j: nat, k: nat, tools: Tools)
    requires SoundParser(tools) && j < k < |session| && Answer(session, j, tools).Received?
    requires tools.parse(session[j].text).Some? && tools.parse(session[k].text).Some?
    requires tools.parse(session[j].text).value.index == tools.parse(session[k].text).value.index
    requires tools.parse(session[j].text).value.data != tools.parse(session[k].text).value.data
    ensures Answer(session, k, tools).Rejected?
    ensures After(session[..k + 1], tools) == After(session[..k], tools)
  {
    AcceptedIsStored(session, j, tools);
    LaterExtends(session, j, k, tools);
    var f := tools.parse(session[j].text).value;
    ContradictionRefused(After(session[..k], tools), session[k].text, session[k].now, tools, f.index, f.data);
    RefusedChangesNothing(session, k, tools);
  }

  // ---------- scanning the frames of one backup, in any order and with repeats ----------

  // The 1-based positions of the frames scanned so far.
  function Seen(order: seq<nat>): set<nat> {
    set k | 0 <= k < |order| :: order[k] + 1
  }

  ghost predicate InRange(order: seq<nat>, payload: string) {
    forall k :: 0 <= k < |order| ==> order[k] < FrameCount(payload)
  }

  function SlicesOf(payload: string, seen: set<nat>): map<nat, string>
    requires forall i :: i in seen ==> 1 <= i <= FrameCount(payload)
  {
    map i | i in seen :: Slice(payload, i - 1)
  }

  // Each scan is read as a frame of the backup, the k-th as the one at position order[k].
  ghost predicate Reads(session: seq<Scanned>, order: seq<nat>, payload: string, tools: Tools) {
    && |session| == |order| && InRange(order, payload)
    && (forall k :: 0 <= k < |order| ==> ReadsAs(session[k].text, payload, order[k], tools))
  }

  ghost predicate ReadsAs(text: string, payload: string, i: nat, tools: Tools)
    requires i < FrameCount(payload)
  {
    |text| <= FRAME_SIZE + 100 && tools.parse(text) == Some(FrameAt(payload, tools.digest, i))
  }

  // Scans come within ten minutes of the first, or the first came at the clock's zero, which the program
  // cannot tell from no start at all.
  ghost predicate InTime(session: seq<Scanned>) {
    forall k :: 0 <= k < |session| ==> session[0].now == 0 || session[k].now - session[0].now <= MAX_AGE_MS
  }

  ghost function Progressed(payload: string, id: string, order: seq<nat>, started: int): Scan
    requires InRange(order, payload)
  {
    if order == [] then FRESH else Scan(id, FrameCount(payload), started, SlicesOf(payload, Seen(order)))
  }

  // What the collector answers to a frame, in terms of the positions seen by then.
  function Expected(payload: string, order: seq<nat>): Outcome {
    Received(|Seen(order)|, FrameCount(payload), if |Seen(order)| == FrameCount(payload) then Some(payload) else None)
  }

  function Upto(n: nat): set<nat> {
    if n == 0 then {} else Upto(n - 1) + {n}
  }

  lemma {:induction false} UptoIs(n: nat)
    ensures |Upto(n)| == n
    ensures forall i :: i in Upto(n) <==> 1 <= i <= n
  {
    if n > 0 { UptoIs(n - 1); }
  }

  lemma AllSeen(seen: set<nat>, n: nat)
    requires forall i :: i in seen ==> 1 <= i <= n
    ensures |seen| == n <==> seen == Upto(n)
  {
    UptoIs(n);
    assert |Upto(n) - seen| == |Upto(n)| - |seen|;
  }

  lemma SeenSnoc(order: seq<nat>, i: nat)
    ensures Seen(order + [i]) == Seen(order) + {i + 1}
  {
    var more := order + [i];
    forall x ensures x in Seen(more) <==> x in Seen(order) + {i + 1} {
      if x in Seen(order) {
        var k :| 0 <= k < |order| && order[k] + 1 == x;
        assert more[k] + 1 == x;
      }
      assert more[|order|] == i;
    }
  }

  lemma SlicesPut(payload: string, seen: set<nat>, i: nat)
    requires forall j :: j in seen ==> 1 <= j <= FrameCount(payload)
    requires i < FrameCount(payload)
    ensures SlicesOf(payload, seen)[i + 1 := Slice(payload, i)] == SlicesOf(payload, seen + {i + 1})
  {}

  lemma {:induction false} AssembleJoins(payload: string, frames: map<nat, string>, n: nat)
    requires n <= FrameCount(payload)
    requires forall i :: 1 <= i <= n ==> i in frames && frames[i] == Slice(payload, i - 1)
    ensures Assemble(frames, n) == Join(payload, n)
  {
    if n > 0 { AssembleJoins(payload, frames, n - 1); }
  }

  lemma SlicesAssemble(payload: string, seen: set<nat>)
    requires seen == Upto(FrameCount(payload))
    requires forall i :: i in seen ==> 1 <= i <= FrameCount(payload)
    ensures Assemble(SlicesOf(payload, seen), FrameCount(payload)) == payload
  {
    var n := FrameCount(payload);
    UptoIs(n);
    AssembleJoins(payload, SlicesOf(payload, seen), n);
    SlicesJoin(payload, n);
    assert payload[..|payload|] == payload;
  }

  lemma SlicesFit(payload: string, i: nat)
    requires Encodable(payload) && i < FrameCount(payload)
    ensures FrameCount(payload) <= MAX_FRAMES && |Slice(payload, i)| <= FRAME_SIZE
  {}

  lemma StoreProgresses(payload: string, tools: Tools, order: seq<nat>, i: nat, text: string, started: int, now: int)
    requires Encodable(payload) && tools.digest(payload) != ""
    requires InRange(order + [i], payload) && InRange(order, payload)
    requires i < FrameCount(payload) && ReadsAs(text, payload, i, tools)
    requires order == [] ==> started == now
    requires started != 0 ==> now - started <= MAX_AGE_MS
    ensures var st := Progressed(payload, tools.digest(payload), order, started);
            && Refusal(st, text, now, tools) == None
            && Store(st, FrameAt(payload, tools.digest, i), now)
               == Progressed(payload, tools.digest(payload), order + [i], started)
  {
    SlicesFit(payload, i);
    SeenSnoc(order, i);
    SlicesPut(payload, Seen(order), i);
    if order == [] { assert Seen(order) == {} && SlicesOf(payload, Seen(order)) == map[]; }
  }

  lemma JudgeProgressed(payload: string, tools: Tools, order: seq<nat>, i: nat, started: int)
    requires tools.envelope(payload) && i < FrameCount(payload)
    requires order != [] && InRange(order, payload)
    ensures Judge(Progressed(payload, tools.digest(payload), order, started), FrameAt(payload, tools.digest, i), tools)
         == Expected(payload, order)
  {
    var frames := SlicesOf(payload, Seen(order));
    assert frames.Keys == Seen(order);
    assert |frames| == |frames.Keys|;
    AllSeen(Seen(order), FrameCount(payload));
    if |Seen(order)| == FrameCount(payload) { SlicesAssemble(payload, Seen(order)); }
  }

  lemma SessionPrefix(session: seq<Scanned>, order: seq<nat>, payload: string, tools: Tools)
    requires session != [] && Reads(session, order, payload, tools) && InTime(session)
    ensures var n := |session| - 1;
            && Reads(session[..n], order[..n], payload, tools) && InTime(session[..n])
            && order[n] < FrameCount(payload) && ReadsAs(session[n].text, payload, order[n], tools)
            && (session[0].now != 0 ==> session[n].now - session[0].now <= MAX_AGE_MS)
            && (n > 0 ==> session[..n][0].now == session[0].now)
  {}

  lemma {:induction false} SessionProgresses(session: seq<Scanned>, order: seq<nat>, payload: string, tools: Tools)
    requires Encodable(payload) && tools.digest(payload) != ""
    requires Reads(session, order, payload, tools) && InTime(session)
    ensures After(session, tools)
         == Progressed(payload, tools.digest(payload), order, if session == [] then 0 else session[0].now)
    decreases |session|
  {
    if session != [] {
      var n := |session| - 1;
      SessionPrefix(session, order, payload, tools);
      SessionProgresses(session[..n], order[..n], payload, tools);
      assert order == order[..n] + [order[n]];
      StoreProgresses(payload, tools, order[..n], order[n], session[n].text, session[0].now, session[n].now);
    }
  }

  lemma ReceiveProgresses(payload: string, tools: Tools, order: seq<nat>, i: nat, text: string, started: int, now: int)
    requires Encodable(payload) && tools.digest(payload) != "" && tools.envelope(payload)
    requires InRange(order + [i], payload) && InRange(order, payload)
    requires i < FrameCount(payload) && ReadsAs(text, payload, i, tools)
    requires order == [] ==> started == now
    requires started != 0 ==> now - started <= MAX_AGE_MS
    ensures Receive(Progressed(payload, tools.digest(payload), order, started), text, now, tools).1
         == Expected(payload, order + [i])
  {
    StoreProgresses(payload, tools, order, i, text, started, now);
    JudgeProgressed(payload, tools, order + [i], i, started);
  }

  lemma ScansBefore(session: seq<Scanned>, order: seq<nat>, payload: string, tools: Tools, k: nat)
    requires Reads(session, order, payload, tools) && InTime(session) && k < |session|
    ensures Reads(session[..k], order[..k], payload, tools) && InTime(session[..k])
    ensures InRange(order[..k] + [order[k]], payload) && order[..k + 1] == order[..k] + [order[k]]
    ensures order[k] < FrameCount(payload) && ReadsAs(session[k].text, payload, order[k], tools)
    ensures session[0].now != 0 ==> session[k].now - session[0].now <= MAX_AGE_MS
    ensures k > 0 ==> session[..k] != [] && session[..k][0] == session[0]
  {}

  lemma AnswerProgresses(session: seq<Scanned>, order: seq<nat>, payload: string, tools: Tools, k: nat)
    requires Encodable(payload) && tools.digest(payload) != "" && tools.envelope(payload)
    requires Reads(session, order, payload, tools) && InTime(session) && k < |session|
    ensures Answer(session, k, tools) == Expected(payload, order[..k + 1])
  {
    ScansBefore(session, order, payload, tools, k);
    SessionProgresses(session[..k], order[..k], payload, tools);
    ReceiveProgresses(payload, tools, order[..k], order[k], session[k].text, session[0].now, session[k].now);
    assert Progressed(payload, tools.digest(payload), order[..k], session[0].now) == After(session[..k], tools);
  }

  // The frames of a backup scanned in any order, with any repeats and in time: every scan is accepted and reports how
  // many different frames were seen, and the payload comes out, whole, exactly at the scans by which all were seen.
  lemma AnyOrderRoundTrip(
      session: seq<Scanned>, order: seq<nat>, payload: string, digest: Digest, envelope: Envelope, k: nat)
    requires Encodable(payload) && HexId(digest(payload)) && envelope(payload)
    requires |session| == |order| && InRange(order, payload)
    requires forall j :: 0 <= j < |order| ==> session[j].text == EncodeConfigQr(payload, digest).value[order[j]]
    requires InTime(session) && k < |session|
    ensures Answer(session, k, RealTools(digest, envelope)) == Expected(payload, order[..k + 1])
    ensures |Seen(order[..k + 1])| == FrameCount(payload) <==> Seen(order[..k + 1]) == Upto(FrameCount(payload))
  {
    var tools := RealTools(digest, envelope);
    forall j | 0 <= j < |order| ensures ReadsAs(session[j].text, payload, order[j], tools) {
      FramesReadBack(payload, digest, order[j]);
    }
    AnswerProgresses(session, order, payload, tools, k);
    AllSeen(Seen(order[..k + 1]), FrameCount(payload));
  }
}
