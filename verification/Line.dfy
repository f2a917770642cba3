/**
 What is under way between the SDK and the SFU (sdk/src/signaling.ts), and how the SDK
 matches an error, which carries no request id, to the request it answers. Behind each
 request the client sends a `Ping` and notes a fence; the SFU answers each message before it
 reads the next, so everything up to the matching `Pong` answers the oldest fenced request.
 */
module Line {
  import opened Collections
  import opened Wrappers

  type MediaTrack = nat

  datatype Code =
    | NotInRoom | TooManyTracks | SessionFailed | OfferFailed | InvalidTrack | SsrcCollision | DuplicateSsrc | OtherCode

  const PUBLISH_REFUSALS := {NotInRoom, TooManyTracks, SessionFailed, OfferFailed}
  const MLINE_REFUSALS := {TooManyTracks, InvalidTrack, SsrcCollision, DuplicateSsrc}

  /** A message up. Requests and their Pings carry an id that the wire does not: it says which belong together. */
  datatype Msg = Request(id: nat) | Ping(id: nat) | Unfenced

  /**
   A message down: a Pong, an error answering request `id`, an offer, a track that answer `id`
   registered, or anything else. What the wire does not carry: the ids, and in an error the
   track whose m-line it refuses, if it is about one.
   */
  datatype Reply =
    | Pong(id: nat)
    | ErrorOf(id: nat, code: Code, refused: Option<MediaTrack>)
    | Offer
    | Published(id: nat, track: MediaTrack)
    | Notice

  /** A reply that answers one request: an error or a registered track. */
  predicate Answers(r: Reply) {
    r.ErrorOf? || r.Published?
  }

  /** What the SFU may reply to `m` before it reads on. */
  predicate Replies(m: Msg, replies: seq<Reply>) {
    match m
    case Ping(id) => replies == [Pong(id)]
    case Request(id) =>
      forall i :: 0 <= i < |replies| ==>
        !replies[i].Pong? && (Answers(replies[i]) ==> replies[i].id == id)
    case Unfenced =>
      forall i :: 0 <= i < |replies| ==> !replies[i].Pong? && !Answers(replies[i])
  }

  // ── What is under way ────────────────────────────────────────────

  /** A fence to come off, something about a request, or neither. */
  datatype Mark = Tag(id: nat) | About(id: nat) | Plain

  function MarkOfMsg(m: Msg): Mark {
    match m
    case Request(id) => About(id)
    case Ping(id) => Tag(id)
    case Unfenced => Plain
  }

  function MarkOfReply(r: Reply): Mark {
    match r
    case Pong(id) => Tag(id)
    case ErrorOf(id, _, _) => About(id)
    case Published(id, _) => About(id)
    case _ => Plain
  }

  function MsgMarks(ms: seq<Msg>): (r: seq<Mark>)
    ensures |r| == |ms| && forall i :: 0 <= i < |ms| ==> r[i] == MarkOfMsg(ms[i])
  {
    seq(|ms|, i requires 0 <= i < |ms| => MarkOfMsg(ms[i]))
  }

  function ReplyMarks(rs: seq<Reply>): (r: seq<Mark>)
    ensures |r| == |rs| && forall i :: 0 <= i < |rs| ==> r[i] == MarkOfReply(rs[i])
  {
    seq(|rs|, i requires 0 <= i < |rs| => MarkOfReply(rs[i]))
  }

  /** The fences that come off, in order. */
  function Tags(marks: seq<Mark>): seq<nat> {
    if marks == [] then [] else (if marks[0].Tag? then [marks[0].id] else []) + Tags(marks[1..])
  }

  /** What is about a request that is still fenced comes off before its fence and after all earlier ones. */
  ghost predicate InFront(marks: seq<Mark>, fences: seq<nat>) {
    forall j :: 0 <= j < |marks| && marks[j].About? && marks[j].id in fences ==>
      Tags(marks[j + 1..]) != [] && Tags(marks[j + 1..])[0] == marks[j].id
  }

  /** The fences are the Pongs in flight, the Pings in flight and the Pings queued, one to one and in order. */
  ghost predicate Aligned(marks: seq<Mark>, fences: seq<nat>) {
    Tags(marks) == fences && InFront(marks, fences)
  }

  lemma {:induction false} TagsAppend(a: seq<Mark>, b: seq<Mark>)
    ensures Tags(a + b) == Tags(a) + Tags(b)
  {
    if a == [] {
      assert a + b == b;
    } else {
      TagsAppend(a[1..], b);
      assert (a + b)[0] == a[0] && (a + b)[1..] == a[1..] + b;
      var head := if a[0].Tag? then [a[0].id] else [];
      assert Tags(a + b) == head + (Tags(a[1..]) + Tags(b));
      assert head + (Tags(a[1..]) + Tags(b)) == (head + Tags(a[1..])) + Tags(b);
    }
  }

  lemma {:induction false} NoTags(marks: seq<Mark>)
    requires forall i :: 0 <= i < |marks| ==> !marks[i].Tag?
    ensures Tags(marks) == []
  {
    if marks != [] {
      NoTags(marks[1..]);
    }
  }

  /** A new request and its Ping behind everything else. */
  lemma AlignedRequest(marks: seq<Mark>, fences: seq<nat>, id: nat)
    requires Aligned(marks, fences) && id !in fences && forall j :: 0 <= j < |marks| && marks[j].About? ==>
      marks[j].id != id
    ensures Aligned(marks + [About(id), Tag(id)], fences + [id])
  {
    var more := marks + [About(id), Tag(id)];
    TagsAppend(marks, [About(id), Tag(id)]);
    TagsOf(About(id), [Tag(id)]);
    TagsOf(Tag(id), []);
    forall j | 0 <= j < |more| && more[j].About? && more[j].id in fences + [id]
      ensures Tags(more[j + 1..]) != [] && Tags(more[j + 1..])[0] == more[j].id
    {
      if j < |marks| {
        assert more[j + 1..] == marks[j + 1..] + [About(id), Tag(id)];
        TagsAppend(marks[j + 1..], [About(id), Tag(id)]);
      } else {
        assert more[j + 1..] == [Tag(id)];
      }
    }
  }

  lemma TagsOf(m: Mark, rest: seq<Mark>)
    ensures Tags([m] + rest) == (if m.Tag? then [m.id] else []) + Tags(rest)
  {
    assert ([m] + rest)[1..] == rest;
  }

  /** A Ping with no request (keepalive), or a message with no Ping, behind everything else. */
  lemma AlignedMore(marks: seq<Mark>, fences: seq<nat>, m: Mark)
    requires Aligned(marks, fences) && !m.About?
    requires m.Tag? ==> m.id !in fences && forall j :: 0 <= j < |marks| && marks[j].About? ==> marks[j].id != m.id
    ensures Aligned(marks + [m], if m.Tag? then fences + [m.id] else fences)
  {
    var (more, all) := (marks + [m], if m.Tag? then fences + [m.id] else fences);
    TagsAppend(marks, [m]);
    TagsOf(m, []);
    assert [m] + [] == [m];
    forall j | 0 <= j < |more| && more[j].About? && more[j].id in all
      ensures Tags(more[j + 1..]) != [] && Tags(more[j + 1..])[0] == more[j].id
    {
      assert more[j + 1..] == marks[j + 1..] + [m];
      TagsAppend(marks[j + 1..], [m]);
    }
  }

  lemma TagsThree(a: seq<Mark>, b: seq<Mark>, c: seq<Mark>)
    ensures Tags(a + b + c) == Tags(a) + Tags(b) + Tags(c)
  {
    TagsAppend(a + b, c);
    TagsAppend(a, b);
  }

  /** The SFU answers a message: its mark gives way to marks about the same request, or of none. */
  lemma AlignedAnswered(before: seq<Mark>, m: Mark, replies: seq<Mark>, after: seq<Mark>, fences: seq<nat>)
    requires Aligned(before + [m] + after, fences)
    requires if m.Tag? then replies == [m] else forall i :: 0 <= i < |replies| ==>
      replies[i] == m || replies[i] == Plain
    ensures Aligned(before + replies + after, fences)
  {
    if !m.Tag? {
      TagsThree(before, [m], after);
      TagsThree(before, replies, after);
      NoTags(replies);
      NoTags([m]);
      var marks := before + replies + after;
      forall j | 0 <= j < |marks| && marks[j].About? && marks[j].id in fences
        ensures Tags(marks[j + 1..]) != [] && Tags(marks[j + 1..])[0] == marks[j].id
      {
        AnsweredAt(before, m, replies, after, fences, j);
      }
    }
  }

  lemma AnsweredAt(before: seq<Mark>, m: Mark, replies: seq<Mark>, after: seq<Mark>, fences: seq<nat>, j: nat)
    requires Aligned(before + [m] + after, fences) && !m.Tag?
    requires forall i :: 0 <= i < |replies| ==> replies[i] == m || replies[i] == Plain
    requires
      var marks := before + replies + after;
      j < |marks| && marks[j].About? && marks[j].id in fences
    ensures
      var marks := before + replies + after;
      Tags(marks[j + 1..]) != [] && Tags(marks[j + 1..])[0] == marks[j].id
  {
    var (was, marks) := (before + [m] + after, before + replies + after);
    if j < |before| {
      assert was[j] == marks[j];
      assert was[j + 1..] == before[j + 1..] + [m] + after && marks[j + 1..] == before[j + 1..] + replies + after;
      TagsThree(before[j + 1..], [m], after);
      TagsThree(before[j + 1..], replies, after);
      NoTags(replies);
      NoTags([m]);
    } else if j < |before| + |replies| {
      var k := j - |before|;
      assert marks[j] == replies[k] && was[|before|] == m && was[|before| + 1..] == after;
      assert marks[j + 1..] == replies[k + 1..] + after;
      TagsAppend(replies[k + 1..], after);
      NoTags(replies[k + 1..]);
    } else {
      var k := j - |replies| + 1;
      assert was[k] == marks[j] && was[k + 1..] == marks[j + 1..];
    }
  }

  /** The first reply is delivered: a Pong takes the first fence with it. */
  lemma AlignedDelivered(marks: seq<Mark>, fences: seq<nat>)
    requires marks != [] && Aligned(marks, fences) && NoDup(fences)
    ensures marks[0].Tag? ==>
      fences != [] && fences[0] == marks[0].id && Aligned(marks[1..], fences[1..]) && NoDup(fences[1..])
    ensures !marks[0].Tag? ==> Aligned(marks[1..], fences)
    ensures marks[0].About? && marks[0].id in fences ==> fences[0] == marks[0].id
  {
    forall j | 0 <= j < |marks[1..]| ensures marks[1..][j] == marks[j + 1] && marks[1..][j + 1..] == marks[j + 2..] {
    }
    assert Tags(marks) == (if marks[0].Tag? then [marks[0].id] else []) + Tags(marks[1..]);
    if marks[0].About? && marks[0].id in fences {
      assert marks[0 + 1..] == marks[1..];
    }
  }

  // ── Matching ─────────────────────────────────────────────────────

  /** All that is under way: down, then up, then queued. */
  ghost function LineMarks(down: seq<Reply>, up: seq<Msg>, queue: seq<Msg>): seq<Mark> {
    ReplyMarks(down) + MsgMarks(up) + MsgMarks(queue)
  }

  /** The requests that something under way is about. */
  ghost function Abouts(marks: seq<Mark>): set<nat> {
    set j | 0 <= j < |marks| && marks[j].About? :: marks[j].id
  }

  /** Ids below `bound` were handed out, each to one fence. */
  ghost predicate Handed(marks: seq<Mark>, ids: seq<nat>, bound: nat) {
    && NoDup(ids) && (forall i :: 0 <= i < |ids| ==> ids[i] < bound)
    && (forall id :: id in Abouts(marks) ==> id < bound)
  }

  /** Fences whose Pong will never come. */
  ghost function Lost(marks: seq<Mark>, ids: seq<nat>): int {
    |ids| - |Tags(marks)|
  }

  /** A Pong finds a fence; and with none lost, it finds its own. */
  ghost predicate Fine(marks: seq<Mark>, ids: seq<nat>, bound: nat) {
    Handed(marks, ids, bound) && Lost(marks, ids) >= 0 && (Lost(marks, ids) == 0 ==> Aligned(marks, ids))
  }

  /** None is lost, and nothing is under way about a request without a fence. */
  ghost predicate Accounted(marks: seq<Mark>, ids: seq<nat>) {
    Aligned(marks, ids) && Abouts(marks) <= Elements(ids)
  }

  // The three are sealed for the proofs about the client, which never look inside; `Unseal` opens them.

  ghost predicate SoundKey(i: int) {
    true
  }

  ghost predicate StepKey(i: int) {
    true
  }

  ghost predicate ClearKey(i: int) {
    true
  }

  ghost predicate Unseal(i: int) {
    SoundKey(i) && StepKey(i) && ClearKey(i)
  }

  ghost predicate Sound(marks: seq<Mark>, ids: seq<nat>, bound: nat) {
    forall i {:trigger SoundKey(i)} :: SoundKey(i) ==> Fine(marks, ids, bound)
  }

  ghost predicate InStep(marks: seq<Mark>, ids: seq<nat>) {
    forall i {:trigger StepKey(i)} :: StepKey(i) ==> Aligned(marks, ids)
  }

  ghost predicate Clear(marks: seq<Mark>, ids: seq<nat>) {
    forall i {:trigger ClearKey(i)} :: ClearKey(i) ==> Accounted(marks, ids)
  }

  /** A step from one line and its fences to another keeps them in step, or out of step. */
  ghost predicate Kept(marks: seq<Mark>, ids: seq<nat>, more: seq<Mark>, all: seq<nat>, bound: nat) {
    Sound(more, all, bound) && (InStep(more, all) <==> InStep(marks, ids)) && (Clear(marks, ids) ==> Clear(more, all))
  }

  lemma KeptIs(marks: seq<Mark>, ids: seq<nat>, more: seq<Mark>, all: seq<nat>, bound: nat, next: nat)
    requires Fine(marks, ids, bound) && Handed(more, all, next) && Lost(more, all) == Lost(marks, ids)
    requires Aligned(marks, ids) ==> Aligned(more, all)
    requires Accounted(marks, ids) ==> Abouts(more) <= Elements(all)
    ensures Kept(marks, ids, more, all, next)
  {
    assert Unseal(0);
  }

  lemma AboutsAppend(a: seq<Mark>, b: seq<Mark>)
    ensures Abouts(a + b) == Abouts(a) + Abouts(b)
  {
    forall id | id in Abouts(b) ensures id in Abouts(a + b) {
      var j :| 0 <= j < |b| && b[j] == About(id);
      assert (a + b)[|a| + j] == About(id);
    }
    forall id | id in Abouts(a) ensures id in Abouts(a + b) {
      var j :| 0 <= j < |a| && a[j] == About(id);
      assert (a + b)[j] == About(id);
    }
  }

  lemma RequestStep(marks: seq<Mark>, ids: seq<nat>, id: nat)
    requires Sound(marks, ids, id)
    ensures Kept(marks, ids, marks + [About(id), Tag(id)], ids + [id], id + 1)
  {
    assert Unseal(0);
    TagsAppend(marks, [About(id), Tag(id)]);
    TagsOf(About(id), [Tag(id)]);
    TagsOf(Tag(id), []);
    AboutsAppend(marks, [About(id), Tag(id)]);
    if Aligned(marks, ids) {
      AboutOthers(marks, id);
      AlignedRequest(marks, ids, id);
    }
    KeptIs(marks, ids, marks + [About(id), Tag(id)], ids + [id], id, id + 1);
  }

  lemma AboutOthers(marks: seq<Mark>, id: nat)
    requires id !in Abouts(marks)
    ensures forall j :: 0 <= j < |marks| && marks[j].About? ==> marks[j].id != id
  {
  }

  lemma PingStep(marks: seq<Mark>, ids: seq<nat>, id: nat)
    requires Sound(marks, ids, id)
    ensures Kept(marks, ids, marks + [Tag(id)], ids + [id], id + 1)
  {
    assert Unseal(0);
    TagsAppend(marks, [Tag(id)]);
    TagsOf(Tag(id), []);
    AboutsAppend(marks, [Tag(id)]);
    if Aligned(marks, ids) {
      AboutOthers(marks, id);
      AlignedMore(marks, ids, Tag(id));
    }
    KeptIs(marks, ids, marks + [Tag(id)], ids + [id], id, id + 1);
  }

  lemma PlainStep(marks: seq<Mark>, ids: seq<nat>, bound: nat)
    requires Sound(marks, ids, bound)
    ensures Kept(marks, ids, marks + [Plain], ids, bound)
  {
    assert Unseal(0);
    TagsAppend(marks, [Plain]);
    TagsOf(Plain, []);
    AboutsAppend(marks, [Plain]);
    if Aligned(marks, ids) {
      AlignedMore(marks, ids, Plain);
    }
    KeptIs(marks, ids, marks + [Plain], ids, bound, bound);
  }

  lemma NothingUnderWay(bound: nat)
    ensures Sound(LineMarks([], [], []), [], bound) && InStep(LineMarks([], [], []), [])
      && Clear(LineMarks([], [], []), [])
  {
    assert LineMarks([], [], []) == [];
  }

  /** The SFU answers the oldest message. */
  lemma AnswerStep(down: seq<Reply>, up: seq<Msg>, queue: seq<Msg>, replies: seq<Reply>, ids: seq<nat>, bound: nat)
    requires up != [] && Replies(up[0], replies) && Sound(LineMarks(down, up, queue), ids, bound)
    ensures Kept(LineMarks(down, up, queue), ids, LineMarks(down + replies, up[1..], queue), ids, bound)
  {
    var (before, m, after) := (ReplyMarks(down), MarkOfMsg(up[0]), MsgMarks(up[1..]) + MsgMarks(queue));
    assert MsgMarks(up) == [m] + MsgMarks(up[1..]);
    assert LineMarks(down, up, queue) == before + [m] + after;
    assert ReplyMarks(down + replies) == before + ReplyMarks(replies);
    assert LineMarks(down + replies, up[1..], queue) == before + ReplyMarks(replies) + after;
    assert m.Tag? ==> ReplyMarks(replies) == [m];
    MarksAnswered(before, m, ReplyMarks(replies), after, ids, bound);
  }

  lemma MarksAnswered(before: seq<Mark>, m: Mark, replies: seq<Mark>, after: seq<Mark>, ids: seq<nat>, bound: nat)
    requires Sound(before + [m] + after, ids, bound)
    requires if m.Tag? then replies == [m] else forall i :: 0 <= i < |replies| ==>
      replies[i] == m || replies[i] == Plain
    ensures Kept(before + [m] + after, ids, before + replies + after, ids, bound)
  {
    assert Unseal(0);
    if !m.Tag? {
      TagsThree(before, [m], after);
      TagsThree(before, replies, after);
      NoTags(replies);
      NoTags([m]);
    }
    AboutsAppend(before + [m], after);
    AboutsAppend(before, [m]);
    AboutsAppend(before + replies, after);
    AboutsAppend(before, replies);
    assert m.About? ==> [m][0] == m;
    assert Abouts(replies) <= Abouts([m]);
    if Aligned(before + [m] + after, ids) {
      AlignedAnswered(before, m, replies, after, ids);
    }
    KeptIs(before + [m] + after, ids, before + replies + after, ids, bound, bound);
  }

  /** The oldest reply arrives; a Pong takes the oldest fence with it. */
  lemma DeliverStep(down: seq<Reply>, up: seq<Msg>, queue: seq<Msg>, ids: seq<nat>, bound: nat)
    requires down != [] && Sound(LineMarks(down, up, queue), ids, bound)
    ensures down[0].Pong? ==> ids != []
    ensures
      var (marks, next, r) := (LineMarks(down, up, queue), LineMarks(down[1..], up, queue), down[0]);
      && Kept(marks, ids, next, if r.Pong? then ids[1..] else ids, bound)
      && (InStep(marks, ids) && (r.Pong? || (Answers(r) && r.id in ids)) ==> ids != [] && ids[0] == r.id)
      && (Clear(marks, ids) && Answers(r) ==> ids != [] && ids[0] == r.id)
  {
    assert Unseal(0);
    var marks := LineMarks(down, up, queue);
    DeliveredMarks(down, up, queue);
    assert LineMarks(down[1..], up, queue) == marks[1..];
    MarksDelivered(marks, ids, bound);
    if Answers(down[0]) {
      assert marks[0].id in Abouts(marks);
    }
  }

  lemma MarksDelivered(marks: seq<Mark>, ids: seq<nat>, bound: nat)
    requires marks != [] && Fine(marks, ids, bound)
    ensures marks[0].Tag? ==> ids != []
    ensures Kept(marks, ids, marks[1..], if marks[0].Tag? then ids[1..] else ids, bound)
    ensures Aligned(marks, ids) && (marks[0].Tag? || (marks[0].About? && marks[0].id in ids)) ==>
      ids != [] && ids[0] == marks[0].id
  {
    if Aligned(marks, ids) {
      AlignedDelivered(marks, ids);
    }
    if marks[0].Tag? {
      TagDelivered(marks, ids, bound);
    } else {
      OtherDelivered(marks, ids, bound);
    }
  }

  lemma TagDelivered(marks: seq<Mark>, ids: seq<nat>, bound: nat)
    requires marks != [] && Fine(marks, ids, bound) && marks[0].Tag?
    ensures ids != [] && Kept(marks, ids, marks[1..], ids[1..], bound)
  {
    assert marks == [marks[0]] + marks[1..];
    AboutsAppend([marks[0]], marks[1..]);
    if Aligned(marks, ids) {
      AlignedDelivered(marks, ids);
      if Accounted(marks, ids) {
        StillAccounted(marks, ids);
      }
    }
    KeptIs(marks, ids, marks[1..], ids[1..], bound, bound);
  }

  lemma OtherDelivered(marks: seq<Mark>, ids: seq<nat>, bound: nat)
    requires marks != [] && Fine(marks, ids, bound) && !marks[0].Tag?
    ensures Kept(marks, ids, marks[1..], ids, bound)
  {
    assert marks == [marks[0]] + marks[1..];
    AboutsAppend([marks[0]], marks[1..]);
    if Aligned(marks, ids) {
      AlignedDelivered(marks, ids);
    }
    KeptIs(marks, ids, marks[1..], ids, bound, bound);
  }

  /** Nothing follows a Pong that is about the request it ends. */
  lemma StillAccounted(marks: seq<Mark>, ids: seq<nat>)
    requires marks != [] && Accounted(marks, ids) && NoDup(ids) && Abouts(marks[1..]) <= Abouts(marks)
    ensures marks[0].Tag? ==> ids != [] && Abouts(marks[1..]) <= Elements(ids[1..])
  {
    if marks[0].Tag? {
      AlignedDelivered(marks, ids);
      var next := marks[1..];
      forall id | id in Abouts(next) ensures id in ids[1..] {
        var j :| 0 <= j < |next| && next[j] == About(id);
        assert next[j] == marks[j + 1] && next[j + 1..] == marks[j + 2..];
        assert id in Abouts(marks);
        assert next == next[..j + 1] + next[j + 1..];
        TagsAppend(next[..j + 1], next[j + 1..]);
        assert id in Tags(next[j + 1..]);
      }
    }
  }

  lemma DeliveredMarks(down: seq<Reply>, up: seq<Msg>, queue: seq<Msg>)
    requires down != []
    ensures
      var marks := LineMarks(down, up, queue);
      marks != [] && marks[0] == MarkOfReply(down[0])
        && marks[1..] == ReplyMarks(down[1..]) + MsgMarks(up) + MsgMarks(queue)
  {
    assert ReplyMarks(down) == [MarkOfReply(down[0])] + ReplyMarks(down[1..]);
  }

  function WithoutPings(ms: seq<Msg>): (r: seq<Msg>)
    ensures forall m :: m in r <==> m in ms && !m.Ping?
  {
    if ms == [] then [] else (if ms[0].Ping? then [] else [ms[0]]) + WithoutPings(ms[1..])
  }

  predicate HasRequest(ms: seq<Msg>) {
    exists i :: 0 <= i < |ms| && ms[i].Request?
  }

  /**
   After a disconnect no fence is left and no Ping; requests that were queued stay, without
   a fence. So errors can be accounted for exactly when none was.
   */
  lemma DisconnectStep(down: seq<Reply>, up: seq<Msg>, queue: seq<Msg>, ids: seq<nat>, bound: nat)
    requires Sound(LineMarks(down, up, queue), ids, bound)
    ensures
      var rest := LineMarks([], [], WithoutPings(queue));
      Sound(rest, [], bound) && InStep(rest, []) && (Clear(rest, []) <==> !HasRequest(queue))
  {
    assert Unseal(0);
    var (rest, kept) := (LineMarks([], [], WithoutPings(queue)), WithoutPings(queue));
    assert rest == MsgMarks(kept);
    NoTags(rest);
    KeptRequests(queue);
    AboutsAppend(ReplyMarks(down) + MsgMarks(up), MsgMarks(queue));
  }

  lemma KeptRequests(queue: seq<Msg>)
    ensures Abouts(MsgMarks(WithoutPings(queue))) == Abouts(MsgMarks(queue))
    ensures HasRequest(queue) <==> Abouts(MsgMarks(queue)) != {}
  {
    var kept := WithoutPings(queue);
    forall id | id in Abouts(MsgMarks(queue)) ensures id in Abouts(MsgMarks(kept)) && HasRequest(queue) {
      var l :| 0 <= l < |queue| && MsgMarks(queue)[l] == About(id);
      assert queue[l] in kept;
      var j :| 0 <= j < |kept| && kept[j] == queue[l];
      assert MsgMarks(kept)[j] == About(id);
    }
    forall id | id in Abouts(MsgMarks(kept)) ensures id in Abouts(MsgMarks(queue)) {
      var j :| 0 <= j < |kept| && MsgMarks(kept)[j] == About(id);
      assert kept[j] in queue;
      var l :| 0 <= l < |queue| && queue[l] == kept[j];
      assert MsgMarks(queue)[l] == About(id);
    }
    if HasRequest(queue) {
      var l :| 0 <= l < |queue| && queue[l].Request?;
      assert MsgMarks(queue)[l].id in Abouts(MsgMarks(queue));
    }
  }

  /** A new socket: what was in flight on the old one is gone, and its fences with it are lost. */
  lemma ConnectStep(down: seq<Reply>, up: seq<Msg>, queue: seq<Msg>, ids: seq<nat>, bound: nat)
    requires Sound(LineMarks(down, up, queue), ids, bound)
    ensures
      var (marks, rest) := (LineMarks(down, up, queue), LineMarks([], [], queue));
      && Sound(rest, ids, bound) && (InStep(rest, ids) <==> |ids| == |Tags(MsgMarks(queue))|)
      && (InStep(rest, ids) ==> InStep(marks, ids)) && (InStep(rest, ids) && Clear(marks, ids) ==> Clear(rest, ids))
  {
    var (a, b) := (ReplyMarks(down) + MsgMarks(up), MsgMarks(queue));
    assert LineMarks(down, up, queue) == a + b && LineMarks([], [], queue) == b;
    MarksCut(a, b, ids, bound);
  }

  lemma MarksCut(a: seq<Mark>, b: seq<Mark>, ids: seq<nat>, bound: nat)
    requires Sound(a + b, ids, bound)
    ensures Sound(b, ids, bound) && (InStep(b, ids) <==> |ids| == |Tags(b)|)
    ensures InStep(b, ids) ==> InStep(a + b, ids) && (Clear(a + b, ids) ==> Clear(b, ids))
  {
    assert Unseal(0);
    TagsAppend(a, b);
    AboutsAppend(a, b);
    assert |Tags(a + b)| == |Tags(a)| + |Tags(b)|;
    if |Tags(b)| == |ids| {
      assert Lost(a + b, ids) == 0;
      SuffixAligned(a, b, ids);
    }
  }

  /** Dropping the front keeps the rest matched exactly when no fence was in the front. */
  lemma SuffixAligned(a: seq<Mark>, b: seq<Mark>, fences: seq<nat>)
    requires Aligned(a + b, fences)
    ensures Aligned(b, fences) <==> Tags(a) == []
  {
    TagsAppend(a, b);
    if Tags(a) == [] {
      forall j | 0 <= j < |b| ensures (a + b)[|a| + j] == b[j] && (a + b)[|a| + j + 1..] == b[j + 1..] {
      }
    }
  }

  // ── The wire ─────────────────────────────────────────────────────

  /** What is in flight, down and up, and what is queued. */
  datatype Wire = Wire(down: seq<Reply>, up: seq<Msg>, queue: seq<Msg>)

  ghost function MarksOn(w: Wire): seq<Mark> {
    LineMarks(w.down, w.up, w.queue)
  }

  // The same three of a wire, so that its marks appear only where they are opened.

  ghost predicate SoundOn(w: Wire, ids: seq<nat>, bound: nat) {
    forall i {:trigger SoundKey(i)} :: SoundKey(i) ==> Fine(MarksOn(w), ids, bound)
  }

  ghost predicate InStepOn(w: Wire, ids: seq<nat>) {
    forall i {:trigger StepKey(i)} :: StepKey(i) ==> Aligned(MarksOn(w), ids)
  }

  ghost predicate ClearOn(w: Wire, ids: seq<nat>) {
    forall i {:trigger ClearKey(i)} :: ClearKey(i) ==> Accounted(MarksOn(w), ids)
  }

  ghost predicate KeptOn(w: Wire, ids: seq<nat>, x: Wire, all: seq<nat>, bound: nat) {
    && SoundOn(x, all, bound) && (InStepOn(x, all) <==> InStepOn(w, ids))
    && (ClearOn(w, ids) ==> ClearOn(x, all))
  }

  lemma Opened(w: Wire, ids: seq<nat>, bound: nat)
    ensures SoundOn(w, ids, bound) <==> Sound(MarksOn(w), ids, bound)
    ensures InStepOn(w, ids) <==> InStep(MarksOn(w), ids)
    ensures ClearOn(w, ids) <==> Clear(MarksOn(w), ids)
  {
    assert Unseal(0);
  }

  /** `m` behind everything: in flight if `here`, else queued. */
  function Put(w: Wire, here: bool, m: Msg): Wire {
    if here then w.(up := w.up + [m]) else w.(queue := w.queue + [m])
  }

  lemma PutMark(w: Wire, here: bool, m: Msg)
    requires here ==> w.queue == []
    ensures MarksOn(Put(w, here, m)) == MarksOn(w) + [MarkOfMsg(m)]
  {
    assert MsgMarks(w.up + [m]) == MsgMarks(w.up) + [MarkOfMsg(m)];
    assert MsgMarks(w.queue + [m]) == MsgMarks(w.queue) + [MarkOfMsg(m)];
    assert MsgMarks([]) == [];
  }

  lemma WireRequest(w: Wire, here: bool, ids: seq<nat>, id: nat)
    requires (here ==> w.queue == []) && SoundOn(w, ids, id)
    ensures KeptOn(w, ids, Put(Put(w, here, Request(id)), here, Ping(id)), ids + [id], id + 1)
  {
    var x := Put(w, here, Request(id));
    PutMark(w, here, Request(id));
    PutMark(x, here, Ping(id));
    assert MarksOn(Put(x, here, Ping(id))) == MarksOn(w) + [About(id), Tag(id)];
    Opened(w, ids, id);
    RequestStep(MarksOn(w), ids, id);
    Opened(Put(x, here, Ping(id)), ids + [id], id + 1);
  }

  lemma WirePing(w: Wire, here: bool, ids: seq<nat>, id: nat)
    requires (here ==> w.queue == []) && SoundOn(w, ids, id)
    ensures KeptOn(w, ids, Put(w, here, Ping(id)), ids + [id], id + 1)
  {
    PutMark(w, here, Ping(id));
    Opened(w, ids, id);
    PingStep(MarksOn(w), ids, id);
    Opened(Put(w, here, Ping(id)), ids + [id], id + 1);
  }

  lemma WirePlain(w: Wire, here: bool, ids: seq<nat>, bound: nat)
    requires (here ==> w.queue == []) && SoundOn(w, ids, bound)
    ensures KeptOn(w, ids, Put(w, here, Unfenced), ids, bound)
  {
    PutMark(w, here, Unfenced);
    Opened(w, ids, bound);
    PlainStep(MarksOn(w), ids, bound);
    Opened(Put(w, here, Unfenced), ids, bound);
  }

  lemma WireAnswered(w: Wire, replies: seq<Reply>, ids: seq<nat>, bound: nat)
    requires w.up != [] && Replies(w.up[0], replies) && SoundOn(w, ids, bound)
    ensures KeptOn(w, ids, Wire(w.down + replies, w.up[1..], w.queue), ids, bound)
  {
    Opened(w, ids, bound);
    AnswerStep(w.down, w.up, w.queue, replies, ids, bound);
    Opened(Wire(w.down + replies, w.up[1..], w.queue), ids, bound);
  }

  lemma WireDelivered(w: Wire, ids: seq<nat>, bound: nat)
    requires w.down != [] && SoundOn(w, ids, bound)
    ensures w.down[0].Pong? ==> ids != []
    ensures
      var r := w.down[0];
      && KeptOn(w, ids, w.(down := w.down[1..]), if r.Pong? then ids[1..] else ids, bound)
      && (InStepOn(w, ids) && (r.Pong? || (Answers(r) && r.id in ids)) ==> ids != [] && ids[0] == r.id)
      && (ClearOn(w, ids) && Answers(r) ==> ids != [] && ids[0] == r.id)
  {
    Opened(w, ids, bound);
    DeliverStep(w.down, w.up, w.queue, ids, bound);
    Opened(w.(down := w.down[1..]), if w.down[0].Pong? then ids[1..] else ids, bound);
  }

  lemma WireClosed(w: Wire, ids: seq<nat>, bound: nat)
    requires SoundOn(w, ids, bound)
    ensures
      var x := Wire([], [], WithoutPings(w.queue));
      SoundOn(x, [], bound) && InStepOn(x, []) && (ClearOn(x, []) <==> !HasRequest(w.queue))
  {
    Opened(w, ids, bound);
    DisconnectStep(w.down, w.up, w.queue, ids, bound);
    Opened(Wire([], [], WithoutPings(w.queue)), [], bound);
  }

  lemma WireReplaced(w: Wire, ids: seq<nat>, bound: nat)
    requires SoundOn(w, ids, bound)
    ensures
      var x := Wire([], [], w.queue);
      && SoundOn(x, ids, bound) && (InStepOn(x, ids) <==> |ids| == |Tags(MsgMarks(w.queue))|)
      && (InStepOn(x, ids) ==> InStepOn(w, ids)) && (InStepOn(x, ids) && ClearOn(w, ids) ==> ClearOn(x, ids))
  {
    Opened(w, ids, bound);
    ConnectStep(w.down, w.up, w.queue, ids, bound);
    Opened(Wire([], [], w.queue), ids, bound);
  }

  /** What was queued is in flight. */
  lemma WireFlushed(queue: seq<Msg>, ids: seq<nat>, bound: nat)
    requires SoundOn(Wire([], [], queue), ids, bound)
    ensures KeptOn(Wire([], [], queue), ids, Wire([], queue, []), ids, bound)
  {
    Opened(Wire([], [], queue), ids, bound);
    Opened(Wire([], queue, []), ids, bound);
    assert MsgMarks([]) == [];
    assert MarksOn(Wire([], [], queue)) == MarksOn(Wire([], queue, []));
  }

  lemma WireEmpty(bound: nat)
    ensures
      var w := Wire([], [], []);
      SoundOn(w, [], bound) && InStepOn(w, []) && ClearOn(w, [])
  {
    Opened(Wire([], [], []), [], bound);
    NothingUnderWay(bound);
  }

  // ── The transport ────────────────────────────────────────────────

  class SignalingTransport {
    var connected: bool
    var open: bool
    var authenticated: bool
    /** What is in flight on the current connection, and the message queue. */
    var wire: Wire

    ghost predicate Valid()
      reads this
    {
      && (authenticated ==> connected)
      && (authenticated && open ==> wire.queue == [])
      && (!connected || !authenticated ==> wire.up == [] && wire.down == [])
    }

    /** `isConnected`: a message sent now goes out on this connection. */
    predicate Sending()
      reads this
    {
      authenticated && connected && open
    }

    constructor ()
      ensures Valid() && !connected && wire == Wire([], [], [])
    {
      connected, open, authenticated, wire := false, false, false, Wire([], [], []);
    }

    /** Sent, or queued for the next authenticated connection: behind everything under way. */
    method Send(m: Msg)
      requires Valid()
      modifies this`wire
      ensures Valid() && wire == Put(old(wire), Sending(), m)
    {
      if Sending() {
        wire := wire.(up := wire.up + [m]);
      } else {
        wire := wire.(queue := wire.queue + [m]);
      }
    }

    method DropPings()
      requires Valid() && wire.up == [] && wire.down == []
      modifies this`wire
      ensures Valid() && wire == Wire([], [], WithoutPings(old(wire).queue))
    {
      wire := wire.(queue := WithoutPings(wire.queue));
    }

    /** `auth_ok` on an open socket: what was queued goes out, in order. */
    method OnAuthenticated()
      requires Valid() && connected && !authenticated
      modifies this
      ensures Valid() && authenticated && open && connected && wire == Wire([], old(wire).queue, [])
    {
      authenticated, open := true, true;
      ghost var all := wire.queue;
      while wire.queue != []
        invariant authenticated && open && connected && wire.down == [] && wire.up + wire.queue == all
        decreases |wire.queue|
      {
        var m := wire.queue[0];
        wire := wire.(queue := wire.queue[1..]);
        wire := wire.(up := wire.up + [m]);
      }
      assert wire.up == all;
    }

    /** `readyState` leaves OPEN before `onclose` fires. */
    method OnClosing()
      requires Valid()
      modifies this`open
      ensures Valid() && !open
    {
      open := false;
    }

    /** `onclose` of the current socket: nothing in flight arrives any more. */
    method OnClose()
      requires Valid() && connected
      modifies this
      ensures Valid() && connected && !authenticated && wire == Wire([], [], old(wire).queue)
    {
      authenticated, open := false, false;
      wire := Wire([], [], wire.queue);
    }

    /** `close`: nothing queued or in flight counts any more. */
    method Close()
      requires Valid()
      modifies this
      ensures Valid() && !connected && wire == Wire([], [], [])
    {
      authenticated, open, connected, wire := false, false, false, Wire([], [], []);
    }

    /** A new socket replaces the current one, if any; what is in flight on the old one is ignored. */
    method Connect()
      requires Valid()
      modifies this
      ensures Valid() && connected && !authenticated && wire == Wire([], [], old(wire).queue)
    {
      connected, open, authenticated := true, false, false;
      wire := Wire([], [], wire.queue);
    }

    /** The SFU answers the oldest message before it reads the next one. */
    method SfuAnswers(replies: seq<Reply>)
      requires Valid() && wire.up != [] && Replies(wire.up[0], replies)
      modifies this`wire
      ensures Valid() && wire == Wire(old(wire).down + replies, old(wire).up[1..], old(wire).queue)
    {
      wire := wire.(up := wire.up[1..], down := wire.down + replies);
    }

    /** The oldest reply arrives. */
    method Receive() returns (r: Reply)
      requires Valid() && authenticated && wire.down != []
      modifies this`wire
      ensures Valid() && r == old(wire).down[0] && wire == old(wire).(down := old(wire).down[1..])
    {
      r := wire.down[0];
      wire := wire.(down := wire.down[1..]);
    }
  }
}
