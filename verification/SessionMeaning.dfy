/** What a served session means: its replies are the segment's layers run from scratch over
    exactly the rows of that session, however the rows were cut into frames. */
module SessionMeaning {
  import opened CausalLayers
  import opened DecodeBatch
  import opened NativeContexts
  import opened GreedyReference
  import opened SegmentRunners
  import opened RelaySession

  function CellsOf(rows: seq<Row>): seq<Cell> {
    seq(|rows|, i requires 0 <= i < |rows| => Cell(i, rows[i]))
  }

  /** The output row of every position, from scratch. */
  function StackRows(layers: seq<Layer>, rows: seq<Row>): (r: seq<Row>)
    ensures |r| == |rows|
  {
    var out := Stack(layers, CellsOf(rows));
    seq(|rows|, i requires 0 <= i < |rows| => out[i].row)
  }

  /** An engine that has been fed rows on sequence 0 from position 0. */
  function FedRows(rows: seq<Row>): History {
    if rows == [] then map[] else map[0 := CellsOf(rows)]
  }

  lemma CellsAppend(rows: seq<Row>, x: Row)
    ensures CellsOf(rows + [x]) == CellsOf(rows) + [Cell(|rows|, x)]
  {
  }

  lemma StackRowsAppend(layers: seq<Layer>, rows: seq<Row>, x: Row)
    ensures StackRows(layers, rows + [x]) == StackRows(layers, rows) + [LastRow(layers, CellsOf(rows + [x]))]
  {
    CellsAppend(rows, x);
    StackAppend(layers, CellsOf(rows), Cell(|rows|, x));
  }

  lemma FeedOne(layers: seq<Layer>, rows: seq<Row>, x: Row)
    ensures var it := Item(0, |rows|, x);
            && Append(FedRows(rows), it) == FedRows(rows + [x])
            && Fits(FedRows(rows), [it])
            && Store(FedRows(rows), [it]) == FedRows(rows + [x])
            && Rows(Emit(layers, FedRows(rows), [it])) == [LastRow(layers, CellsOf(rows + [x]))]
  {
    CellsAppend(rows, x);
    var it := Item(0, |rows|, x);
    assert [it][1..] == [];
    assert Append(FedRows(rows), it) == FedRows(rows + [x]);
    assert Emit(layers, FedRows(rows + [x]), []) == [];
  }

  /** The items take the cache to that of all the fed rows, and what they emit completes the
      from-scratch outputs of all of them. */
  ghost predicate FedTo(layers: seq<Layer>, sofar: seq<Row>, h: History, items: seq<Item>, fed: seq<Row>) {
    && Fits(h, items) && Store(h, items) == FedRows(fed)
    && sofar + Rows(Emit(layers, h, items)) == StackRows(layers, fed)
  }

  lemma FedToSame(layers: seq<Layer>, sofar: seq<Row>, h: History, items: seq<Item>, fed: seq<Row>, items': seq<Item>,
                  fed': seq<Row>)
    requires FedTo(layers, sofar, h, items, fed) && items == items' && fed == fed'
    ensures FedTo(layers, sofar, h, items', fed')
  {
  }

  /** Feeding more rows after some: the cache is that of all of them, and the outputs are
      the later part of the from-scratch outputs of all of them. */
  lemma {:induction false} FeedRows(layers: seq<Layer>, a: seq<Row>, b: seq<Row>)
    ensures FedTo(layers, StackRows(layers, a), FedRows(a), Plain(|a|, b), a + b)
    decreases |b|
  {
    if b == [] {
      FeedNothing(layers, a);
      FedToSame(layers, StackRows(layers, a), FedRows(a), [], a, Plain(|a|, b), a + b);
    } else {
      var init, x := b[..|b| - 1], b[|b| - 1];
      assert b == init + [x];
      FeedRows(layers, a, init);
      FeedLonger(layers, a, init, x);
    }
  }

  lemma FeedLonger(layers: seq<Layer>, a: seq<Row>, init: seq<Row>, x: Row)
    requires FedTo(layers, StackRows(layers, a), FedRows(a), Plain(|a|, init), a + init)
    ensures FedTo(layers, StackRows(layers, a), FedRows(a), Plain(|a|, init + [x]), a + (init + [x]))
  {
    PlainLonger(a, init, x);
    FeedAnother(layers, StackRows(layers, a), FedRows(a), Plain(|a|, init), a + init, x);
  }

  lemma PlainLonger(a: seq<Row>, init: seq<Row>, x: Row)
    ensures Plain(|a|, init) + [Item(0, |a + init|, x)] == Plain(|a|, init + [x])
    ensures a + init + [x] == a + (init + [x])
  {
  }

  lemma FeedNothing(layers: seq<Layer>, a: seq<Row>)
    ensures FedTo(layers, StackRows(layers, a), FedRows(a), [], a)
  {
    assert Emit(layers, FedRows(a), []) == [];
  }

  lemma FeedAnother(layers: seq<Layer>, sofar: seq<Row>, h: History, items: seq<Item>, fed: seq<Row>, x: Row)
    requires FedTo(layers, sofar, h, items, fed)
    ensures FedTo(layers, sofar, h, items + [Item(0, |fed|, x)], fed + [x])
  {
    FeedOne([], fed, x);
    StoreSplit(h, items, [Item(0, |fed|, x)]);
    FeedEmit(layers, sofar, h, items, fed, x);
  }

  lemma FeedEmit(layers: seq<Layer>, sofar: seq<Row>, h: History, items: seq<Item>, fed: seq<Row>, x: Row)
    requires Store(h, items) == FedRows(fed)
    requires sofar + Rows(Emit(layers, h, items)) == StackRows(layers, fed)
    ensures sofar + Rows(Emit(layers, h, items + [Item(0, |fed|, x)])) == StackRows(layers, fed + [x])
  {
    EmitOneMore(layers, h, items, Item(0, |fed|, x), fed);
    FeedOne(layers, fed, x);
    StackRowsAppend(layers, fed, x);
    Regroup(sofar, Rows(Emit(layers, h, items)), LastRow(layers, CellsOf(fed + [x])));
  }

  lemma EmitOneMore(layers: seq<Layer>, h: History, items: seq<Item>, it: Item, fed: seq<Row>)
    requires Store(h, items) == FedRows(fed)
    ensures Rows(Emit(layers, h, items + [it])) == Rows(Emit(layers, h, items)) + Rows(Emit(layers, FedRows(fed), [it]))
  {
    EmitSplit(layers, h, items, [it]);
    RowsConcat(Emit(layers, h, items), Emit(layers, FedRows(fed), [it]));
  }

  lemma Regroup(a: seq<Row>, b: seq<Row>, x: Row)
    ensures a + (b + [x]) == a + b + [x]
  {
  }

  lemma RowsConcat(a: seq<Item>, b: seq<Item>)
    ensures Rows(a + b) == Rows(a) + Rows(b)
  {
  }

  // ---- sessions ----

  /** The rows that plain frames and token frames have counted. */
  function Consumed(role: Role, frames: seq<Frame>): nat
    decreases |frames|
  {
    if frames == [] then 0
    else Consumed(role, frames[..|frames| - 1]) + Counts(role, frames[|frames| - 1])
  }

  /** Everything the frames bring to the engine, with where it goes. */
  function AllItems(role: Role, frames: seq<Frame>): seq<Item>
    decreases |frames|
  {
    if frames == [] then []
    else
      var init := frames[..|frames| - 1];
      AllItems(role, init) + Items(role, Consumed(role, init), frames[|frames| - 1])
  }

  /** The replies are the pieces of one list of rows, cut as the frames are. */
  predicate Answers(role: Role, replies: seq<Reply>, frames: seq<Frame>, all: seq<Row>)
    decreases |frames|
  {
    if frames == [] then replies == [] && all == []
    else
      var k, n := |frames| - 1, |Items(role, 0, frames[|frames| - 1])|;
      && |replies| == |frames| && n <= |all|
      && replies[k] == Produced(k, Rendered(role, frames[k].kind, all[|all| - n..]))
      && Answers(role, replies[..k], frames[..k], all[..|all| - n])
  }

  /** A frame that a session of this mode can have answered. */
  predicate Suits(role: Role, mode: Mode, f: Frame) {
    && Brought(role, f) != []
    && match f.kind
       case Hidden => !role.HeadRole? && mode == PlainMode
       case HiddenSeq(_) => !role.HeadRole? && mode == SeqMode
       case TokenIds(_) => role.HeadRole? && mode == Unset
       case _ => false
  }

  /** Explicit positions and plain frames do not mix. */
  predicate AllSuit(role: Role, mode: Mode, frames: seq<Frame>) {
    (role.HeadRole? ==> mode == Unset) && forall i :: 0 <= i < |frames| ==> Suits(role, mode, frames[i])
  }

  /** What holds after any frames whatever, for any runner: as many frames have been answered
      as the session's sequence number and at most one more reply, which ends it; the cache is
      that of everything those frames brought, and the replies are the pieces of what all the
      layers make of it from scratch. */
  ghost predicate Meant(role: Role, layers: seq<Layer>, frames: seq<Frame>, p: Progress) {
    && p.s.sequence <= |frames| && (p.open ==> p.s.sequence == |frames|)
    && |p.replies| == p.s.sequence + (if p.open then 0 else 1)
    && (!p.open ==> !p.replies[p.s.sequence].Produced?)
    && Done(role, layers, frames[..p.s.sequence], p.s, p.replies[..p.s.sequence])
  }

  /** What the answered frames have done. */
  ghost predicate Done(role: Role, layers: seq<Layer>, frames: seq<Frame>, s: Session, replies: seq<Reply>) {
    var items := AllItems(role, frames);
    && s.sequence == |frames| && AllSuit(role, s.mode, frames)
    && s.pos == Consumed(role, frames) && s.h == Store(map[], items)
    && Answers(role, replies, frames, Rows(Emit(layers, map[], items)))
  }

  lemma NothingMeant(role: Role, layers: seq<Layer>)
    ensures Meant(role, layers, [], Progress(START, [], true))
  {
    assert Emit(layers, map[], []) == [];
  }

  lemma {:induction false} AnySession(role: Role, layers: seq<Layer>, lim: Limits, limit: nat, frames: seq<Frame>)
    ensures Meant(role, layers, frames, Run(role, layers, lim, limit, frames))
    decreases |frames|
  {
    if frames == [] {
      NothingMeant(role, layers);
    } else {
      var init, f := frames[..|frames| - 1], frames[|frames| - 1];
      assert init + [f] == frames;
      AnySession(role, layers, lim, limit, init);
      OneMoreFrame(role, layers, lim, limit, init, f, Run(role, layers, lim, limit, init));
    }
  }

  lemma OneMoreFrame(role: Role, layers: seq<Layer>, lim: Limits, limit: nat, init: seq<Frame>, f: Frame, p: Progress)
    requires Meant(role, layers, init, p)
    ensures Meant(role, layers, init + [f], Advance(role, layers, lim, limit, p, f))
  {
    var frames := init + [f];
    assert frames[..p.s.sequence] == init[..p.s.sequence];
    if p.open {
      var reply := FirstReply(role, layers, lim, limit, p.s, f);
      if reply.Produced? {
        MoreDone(role, layers, limit, init, p, f, reply);
      } else {
        NoMoreDone(role, layers, init, p, f, reply);
      }
    }
  }

  lemma MoreDone(role: Role, layers: seq<Layer>, limit: nat, init: seq<Frame>, p: Progress, f: Frame, reply: Reply)
    requires Meant(role, layers, init, p) && p.open && WellFormed(role, p.s, limit, f)
    requires reply == Produced(p.s.sequence, Rendered(role, f.kind, Rows(Emit(layers, p.s.h, Items(role, p.s.pos, f)))))
    ensures Meant(role, layers, init + [f], Progress(After(role, p.s, f), p.replies + [reply], true))
  {
    assert init[..|init|] == init && p.replies[..|p.replies|] == p.replies;
    OneMoreAnswer(role, layers, limit, init, p.s, p.replies, f);
    AllMeant(role, layers, init + [f], Progress(After(role, p.s, f), p.replies + [reply], true));
  }

  lemma AllMeant(role: Role, layers: seq<Layer>, frames: seq<Frame>, p: Progress)
    requires p.open && |p.replies| == |frames| && Done(role, layers, frames, p.s, p.replies)
    ensures Meant(role, layers, frames, p)
  {
    assert frames[..|frames|] == frames && p.replies[..|frames|] == p.replies;
  }

  lemma NoMoreDone(role: Role, layers: seq<Layer>, init: seq<Frame>, p: Progress, f: Frame, reply: Reply)
    requires Meant(role, layers, init, p) && p.open && !reply.Produced?
    ensures Meant(role, layers, init + [f], Progress(p.s, p.replies + [reply], false))
  {
    assert (init + [f])[..p.s.sequence] == init[..p.s.sequence];
    assert (p.replies + [reply])[..p.s.sequence] == p.replies[..p.s.sequence];
  }

  lemma ItemsAppend(role: Role, frames: seq<Frame>, f: Frame)
    ensures AllItems(role, frames + [f]) == AllItems(role, frames) + Items(role, Consumed(role, frames), f)
    ensures Consumed(role, frames + [f]) == Consumed(role, frames) + Counts(role, f)
  {
    assert (frames + [f])[..|frames|] == frames;
  }

  /** The rows of some items and more are theirs and what the longer history makes of the more. */
  lemma OutAppend(layers: seq<Layer>, h: History, items: seq<Item>, more: seq<Item>)
    ensures Rows(Emit(layers, h, items + more))
         == Rows(Emit(layers, h, items)) + Rows(Emit(layers, Store(h, items), more))
    ensures Store(h, items + more) == Store(Store(h, items), more)
  {
    StoreSplit(h, items, more);
    EmitSplit(layers, h, items, more);
    RowsConcat(Emit(layers, h, items), Emit(layers, Store(h, items), more));
  }

  lemma SuitAppend(role: Role, s: Session, limit: nat, frames: seq<Frame>, f: Frame)
    requires AllSuit(role, s.mode, frames) && WellFormed(role, s, limit, f)
    ensures AllSuit(role, ModeAfter(s.mode, f.kind), frames + [f])
  {
    assert Suits(role, ModeAfter(s.mode, f.kind), f);
    forall i | 0 <= i < |frames| ensures Suits(role, ModeAfter(s.mode, f.kind), frames[i]) {
      assert Suits(role, s.mode, frames[i]);
    }
  }

  lemma ItemsSize(role: Role, layers: seq<Layer>, h: History, pos: nat, f: Frame)
    ensures |Rows(Emit(layers, h, Items(role, pos, f)))| == |Items(role, 0, f)|
  {
  }

  lemma OneMoreAnswer(role: Role, layers: seq<Layer>, limit: nat, frames: seq<Frame>, s: Session, replies: seq<Reply>,
                      f: Frame)
    requires Done(role, layers, frames, s, replies) && WellFormed(role, s, limit, f) && |replies| == |frames|
    ensures var payload := Rendered(role, f.kind, Rows(Emit(layers, s.h, Items(role, s.pos, f))));
            Done(role, layers, frames + [f], After(role, s, f), replies + [Produced(s.sequence, payload)])
  {
    var items, more := AllItems(role, frames), Items(role, s.pos, f);
    ItemsAppend(role, frames, f);
    OutAppend(layers, map[], items, more);
    SuitAppend(role, s, limit, frames, f);
    ItemsSize(role, layers, s.h, s.pos, f);
    AnswersAppend(role, replies, frames, Rows(Emit(layers, map[], items)), f, Rows(Emit(layers, s.h, more)));
  }

  lemma AnswersAppend(role: Role, replies: seq<Reply>, frames: seq<Frame>, all: seq<Row>, f: Frame, out: seq<Row>)
    requires Answers(role, replies, frames, all) && |replies| == |frames| && |out| == |Items(role, 0, f)|
    ensures Answers(role, replies + [Produced(|frames|, Rendered(role, f.kind, out))], frames + [f], all + out)
  {
    var k := |frames|;
    var reply := Produced(k, Rendered(role, f.kind, out));
    Ends(frames, [f]);
    Ends(replies, [reply]);
    Ends(all, out);
  }

  lemma Ends<T>(a: seq<T>, b: seq<T>)
    ensures (a + b)[..|a|] == a && (a + b)[|a|..] == b
    ensures |b| == 1 ==> (a + b)[|a|] == b[0]
  {
  }

  // ---- what the replies say ----

  /** The frames that have been answered. */
  function Heard(frames: seq<Frame>, p: Progress): seq<Frame> {
    if p.s.sequence <= |frames| then frames[..p.s.sequence] else frames
  }

  /** The rows the frames bring, in order. */
  function Taken(role: Role, frames: seq<Frame>): seq<Row>
    decreases |frames|
  {
    if frames == [] then [] else Taken(role, frames[..|frames| - 1]) + Brought(role, frames[|frames| - 1])
  }

  /** All hidden rows sent back, in order. */
  function SentRows(replies: seq<Reply>): seq<Row>
    decreases |replies|
  {
    if replies == [] then []
    else
      var last := replies[|replies| - 1];
      SentRows(replies[..|replies| - 1])
      + (if last.Produced? && last.payload.HiddenRows? then last.payload.rows else [])
  }

  /** All tokens sent back row by row, in order. */
  function SentTokens(replies: seq<Reply>): seq<Token>
    decreases |replies|
  {
    if replies == [] then []
    else
      var last := replies[|replies| - 1];
      SentTokens(replies[..|replies| - 1])
      + (if last.Produced? && last.payload.TokenList? then last.payload.tokens else [])
  }

  lemma {:induction false} AnswersRows(role: Role, replies: seq<Reply>, frames: seq<Frame>, all: seq<Row>)
    requires Answers(role, replies, frames, all) && role.MakesRows()
    ensures SentRows(replies) == all
    decreases |frames|
  {
    if frames != [] {
      var k, n := |frames| - 1, |Items(role, 0, frames[|frames| - 1])|;
      AnswersRows(role, replies[..k], frames[..k], all[..|all| - n]);
      assert all == all[..|all| - n] + all[|all| - n..];
    }
  }

  lemma TokensConcat(logits: Logits, a: seq<Row>, b: seq<Row>)
    ensures Tokens(logits, a + b) == Tokens(logits, a) + Tokens(logits, b)
  {
  }

  lemma {:induction false} AnswersTokens(role: Role, replies: seq<Reply>, frames: seq<Frame>, all: seq<Row>)
    requires Answers(role, replies, frames, all) && !role.MakesRows() && AllSuit(role, SeqMode, frames)
    ensures SentTokens(replies) == Tokens(role.logits, all)
    decreases |frames|
  {
    if frames != [] {
      var k, n := |frames| - 1, |Items(role, 0, frames[|frames| - 1])|;
      assert Suits(role, SeqMode, frames[k]);
      AnswersTokens(role, replies[..k], frames[..k], all[..|all| - n]);
      TokensConcat(role.logits, all[..|all| - n], all[|all| - n..]);
      assert all == all[..|all| - n] + all[|all| - n..];
    }
  }

  lemma PlainConcat(a: seq<Row>, b: seq<Row>)
    ensures Plain(0, a + b) == Plain(0, a) + Plain(|a|, b)
  {
  }

  lemma {:induction false} PlainItems(role: Role, mode: Mode, frames: seq<Frame>)
    requires AllSuit(role, mode, frames) && mode != SeqMode
    ensures AllItems(role, frames) == Plain(0, Taken(role, frames))
    ensures Consumed(role, frames) == |Taken(role, frames)|
    decreases |frames|
  {
    if frames != [] {
      var init, f := frames[..|frames| - 1], frames[|frames| - 1];
      assert Suits(role, mode, f);
      PlainItems(role, mode, init);
      PlainConcat(Taken(role, init), Brought(role, f));
    }
  }

  /** Rows on sequence 0 from position 0 leave the cache of those rows and the from-scratch
      outputs of all of them. */
  lemma FromScratch(layers: seq<Layer>, rows: seq<Row>)
    ensures Store(map[], Plain(0, rows)) == FedRows(rows)
    ensures Rows(Emit(layers, map[], Plain(0, rows))) == StackRows(layers, rows)
  {
    FeedRows(layers, [], rows);
    assert [] + rows == rows;
  }

  /** The reply is the token of the last from-scratch row of these rows. */
  ghost predicate NextOf(logits: Logits, layers: seq<Layer>, rows: seq<Row>, reply: Reply) {
    && rows != [] && reply.Produced?
    && reply.payload == OneToken(ArgMax(logits(LastRow(layers, CellsOf(rows)))))
  }

  /** The last plain reply of a tail is the token of the last row of all. */
  lemma LastPiece(role: Role, replies: seq<Reply>, frames: seq<Frame>, all: seq<Row>)
    requires Answers(role, replies, frames, all) && frames != []
    requires !role.MakesRows() && Suits(role, PlainMode, frames[|frames| - 1])
    ensures |replies| == |frames| && all != []
    ensures replies[|frames| - 1] == Produced(|frames| - 1, OneToken(ArgMax(role.logits(all[|all| - 1]))))
  {
    var f := frames[|frames| - 1];
    assert |Items(role, 0, f)| == |f.rows|;
    LastRendered(role, all, |f.rows|);
  }

  lemma LastRendered(role: Role, all: seq<Row>, n: nat)
    requires !role.MakesRows() && 0 < n <= |all|
    ensures Rendered(role, Hidden, all[|all| - n..]) == OneToken(ArgMax(role.logits(all[|all| - 1])))
  {
  }

  /** A session of a runner that sends rows back sends what its layers make, from scratch, of
      everything it was brought, in order, whether positions were explicit or not. */
  lemma RowsSent(role: Role, layers: seq<Layer>, lim: Limits, limit: nat, frames: seq<Frame>)
    requires role.MakesRows()
    ensures var p := Run(role, layers, lim, limit, frames);
            var items := AllItems(role, Heard(frames, p));
            p.s.h == Store(map[], items) && SentRows(p.replies) == Rows(Emit(layers, map[], items))
  {
    AnySession(role, layers, lim, limit, frames);
    var p := Run(role, layers, lim, limit, frames);
    var heard := Heard(frames, p);
    AnswersRows(role, p.replies[..p.s.sequence], heard, Rows(Emit(layers, map[], AllItems(role, heard))));
    SentByAnswers(p.replies, p.s.sequence);
  }

  /** A tail that is given explicit positions sends the token of each of those rows. */
  lemma TokensSent(role: Role, layers: seq<Layer>, lim: Limits, limit: nat, frames: seq<Frame>)
    requires !role.MakesRows() && Run(role, layers, lim, limit, frames).s.mode == SeqMode
    ensures var p := Run(role, layers, lim, limit, frames);
            var items := AllItems(role, Heard(frames, p));
            && p.s.h == Store(map[], items)
            && SentTokens(p.replies) == Tokens(role.logits, Rows(Emit(layers, map[], items)))
  {
    AnySession(role, layers, lim, limit, frames);
    var p := Run(role, layers, lim, limit, frames);
    var heard := Heard(frames, p);
    AnswersTokens(role, p.replies[..p.s.sequence], heard, Rows(Emit(layers, map[], AllItems(role, heard))));
    SentByAnswers(p.replies, p.s.sequence);
  }

  lemma SentByAnswers(replies: seq<Reply>, n: nat)
    requires |replies| == n || (|replies| == n + 1 && !replies[n].Produced?)
    ensures SentRows(replies[..n]) == SentRows(replies) && SentTokens(replies[..n]) == SentTokens(replies)
  {
    if |replies| == n {
      assert replies[..n] == replies;
    } else {
      NothingSent(replies);
    }
  }

  lemma NothingSent(replies: seq<Reply>)
    requires replies != [] && !replies[|replies| - 1].Produced?
    ensures SentRows(replies) == SentRows(replies[..|replies| - 1])
    ensures SentTokens(replies) == SentTokens(replies[..|replies| - 1])
  {
  }

  /** A session without explicit positions: the rows it brought, whether as rows or as
      tokens, are those of one sequence from position 0. */
  lemma PlainSession(role: Role, layers: seq<Layer>, lim: Limits, limit: nat, frames: seq<Frame>)
    requires Run(role, layers, lim, limit, frames).s.mode != SeqMode
    ensures var p := Run(role, layers, lim, limit, frames);
            var rows := Taken(role, Heard(frames, p));
            && AllItems(role, Heard(frames, p)) == Plain(0, rows)
            && p.s.pos == |rows| && p.s.h == FedRows(rows)
            && (role.MakesRows() ==> SentRows(p.replies) == StackRows(layers, rows))
  {
    AnySession(role, layers, lim, limit, frames);
    var p := Run(role, layers, lim, limit, frames);
    PlainItems(role, p.s.mode, Heard(frames, p));
    FromScratch(layers, Taken(role, Heard(frames, p)));
    if role.MakesRows() {
      RowsSent(role, layers, lim, limit, frames);
    }
  }

  /** What has been sent stays sent: later frames only add replies. */
  lemma {:induction false} RepliesStay(role: Role, layers: seq<Layer>, lim: Limits, limit: nat, frames: seq<Frame>,
                                       i: nat)
    requires i <= |frames|
    ensures Run(role, layers, lim, limit, frames[..i]).replies <= Run(role, layers, lim, limit, frames).replies
    decreases |frames|
  {
    if i < |frames| {
      var init := frames[..|frames| - 1];
      RepliesStay(role, layers, lim, limit, init, i);
      assert init[..i] == frames[..i];
    } else {
      assert frames[..i] == frames;
    }
  }

  /** A tail without explicit positions has answered every frame, when it came, with the token
      that follows all the rows taken by then. */
  lemma NextTokenSent(role: Role, layers: seq<Layer>, lim: Limits, limit: nat, frames: seq<Frame>)
    requires !role.MakesRows() && frames != []
    requires var p := Run(role, layers, lim, limit, frames); p.open && p.s.mode == PlainMode
    ensures var p := Run(role, layers, lim, limit, frames);
            |p.replies| == |frames| && NextOf(role.logits, layers, Taken(role, frames), p.replies[|frames| - 1])
  {
    AnySession(role, layers, lim, limit, frames);
    LastNext(role, layers, frames, Run(role, layers, lim, limit, frames));
  }

  lemma LastNext(role: Role, layers: seq<Layer>, frames: seq<Frame>, p: Progress)
    requires Meant(role, layers, frames, p) && p.open && p.s.mode == PlainMode
    requires !role.MakesRows() && frames != []
    ensures |p.replies| == |frames| && NextOf(role.logits, layers, Taken(role, frames), p.replies[|frames| - 1])
  {
    AllDone(role, layers, frames, p);
    PlainAnswers(role, layers, frames, p.s, p.replies);
    LastOf(role, layers, p.replies, frames, Taken(role, frames));
  }

  lemma AllDone(role: Role, layers: seq<Layer>, frames: seq<Frame>, p: Progress)
    requires Meant(role, layers, frames, p) && p.open
    ensures |p.replies| == |frames| && Done(role, layers, frames, p.s, p.replies)
  {
    assert frames[..|frames|] == frames && p.replies[..|p.replies|] == p.replies;
  }

  lemma LastOf(role: Role, layers: seq<Layer>, replies: seq<Reply>, frames: seq<Frame>, rows: seq<Row>)
    requires Answers(role, replies, frames, StackRows(layers, rows)) && AllSuit(role, PlainMode, frames)
    requires !role.MakesRows() && frames != [] && |replies| == |frames|
    ensures NextOf(role.logits, layers, rows, replies[|frames| - 1])
  {
    assert Suits(role, PlainMode, frames[|frames| - 1]);
    LastPiece(role, replies, frames, StackRows(layers, rows));
    NextOfLast(role.logits, layers, rows, replies[|frames| - 1], |frames| - 1);
  }

  lemma NextOfLast(logits: Logits, layers: seq<Layer>, rows: seq<Row>, reply: Reply, k: nat)
    requires rows != [] && reply == Produced(k, OneToken(ArgMax(logits(StackRows(layers, rows)[|rows| - 1]))))
    ensures NextOf(logits, layers, rows, reply)
  {
  }

  lemma PlainAnswers(role: Role, layers: seq<Layer>, frames: seq<Frame>, s: Session, replies: seq<Reply>)
    requires Done(role, layers, frames, s, replies) && s.mode == PlainMode
    ensures Answers(role, replies, frames, StackRows(layers, Taken(role, frames)))
  {
    PlainItems(role, s.mode, frames);
    FromScratch(layers, Taken(role, frames));
  }

  // ---- how rows are cut into frames ----

  /** The same places for the same rows, however cut into frames and whatever the limits: the same cache, and the
      same rows or tokens sent back. */
  lemma ChunkInvariance(role: Role, layers: seq<Layer>, lim: Limits, limit: nat, one: seq<Frame>,
                        lim': Limits, limit': nat, other: seq<Frame>)
    requires var p, q := Run(role, layers, lim, limit, one), Run(role, layers, lim', limit', other);
             AllItems(role, Heard(one, p)) == AllItems(role, Heard(other, q))
    ensures var p, q := Run(role, layers, lim, limit, one), Run(role, layers, lim', limit', other);
            && p.s.h == q.s.h
            && (role.MakesRows() ==> SentRows(p.replies) == SentRows(q.replies))
            && (!role.MakesRows() && p.s.mode == q.s.mode == SeqMode ==>
                  SentTokens(p.replies) == SentTokens(q.replies))
  {
    AnySession(role, layers, lim, limit, one);
    AnySession(role, layers, lim', limit', other);
    if role.MakesRows() {
      RowsSent(role, layers, lim, limit, one);
      RowsSent(role, layers, lim', limit', other);
    } else if Run(role, layers, lim, limit, one).s.mode == SeqMode
              && Run(role, layers, lim', limit', other).s.mode == SeqMode {
      TokensSent(role, layers, lim, limit, one);
      TokensSent(role, layers, lim', limit', other);
    }
  }

  /** Without explicit positions the same rows in the same order are enough. */
  lemma PlainChunkInvariance(role: Role, layers: seq<Layer>, lim: Limits, limit: nat, one: seq<Frame>,
                             lim': Limits, limit': nat, other: seq<Frame>)
    requires var p, q := Run(role, layers, lim, limit, one), Run(role, layers, lim', limit', other);
             && p.s.mode != SeqMode && q.s.mode != SeqMode
             && Taken(role, Heard(one, p)) == Taken(role, Heard(other, q))
    ensures var p, q := Run(role, layers, lim, limit, one), Run(role, layers, lim', limit', other);
            && p.s.h == q.s.h && p.s.pos == q.s.pos
            && (role.MakesRows() ==> SentRows(p.replies) == SentRows(q.replies))
  {
    PlainSession(role, layers, lim, limit, one);
    PlainSession(role, layers, lim', limit', other);
  }

  /** And so is the token a tail sends back last. */
  lemma NextTokenInvariance(role: Role, layers: seq<Layer>, lim: Limits, limit: nat, one: seq<Frame>,
                            lim': Limits, limit': nat, other: seq<Frame>)
    requires !role.MakesRows() && one != [] && other != [] && Taken(role, one) == Taken(role, other)
    requires var p, q := Run(role, layers, lim, limit, one), Run(role, layers, lim', limit', other);
             p.open && q.open && p.s.mode == q.s.mode == PlainMode
    ensures var p, q := Run(role, layers, lim, limit, one), Run(role, layers, lim', limit', other);
            && |p.replies| == |one| && |q.replies| == |other|
            && p.replies[|one| - 1].Produced? && q.replies[|other| - 1].Produced?
            && p.replies[|one| - 1].payload == q.replies[|other| - 1].payload
  {
    NextTokenSent(role, layers, lim, limit, one);
    NextTokenSent(role, layers, lim', limit', other);
  }
}
