/**
 * Reduction: an orderly interleaved run reaches the same table, store, files, processes and handlers
 * as a serial one, in which at most one handler is in flight at any moment, with the same answers.
 */
module Reduction {
  import opened Protocol
  import opened Interleaved
  import opened Orderly
  import opened Commutation

  // -------------------------------------------------------------------------
  // Serial runs
  // -------------------------------------------------------------------------

  /** The number of events up to and including the first end of a handler. */
  function UntilEnd(es: seq<Event>, t: Ticket): (n: nat)
    ensures n <= |es| && (es != [] ==> n > 0)
  {
    if es == [] then 0
    else if es[0] == End(t) then 1
    else 1 + UntilEnd(es[1..], t)
  }

  /** The stretch to serialize first: that of the handler that begins, or the first event alone. */
  function Span(es: seq<Event>): (n: nat)
    requires es != []
    ensures 0 < n <= |es|
  {
    if es[0].Begin? then UntilEnd(es, es[0].t) else 1
  }

  /** The first owner's events of the first stretch, and what is left of the run without them. */
  function Block(es: seq<Event>): (own: seq<Event>)
    requires es != []
  {
    Only(es[..Span(es)], Who(es[0]))
  }

  function Others(es: seq<Event>): seq<Event>
    requires es != []
  {
    Without(es[..Span(es)], Who(es[0]))
  }

  function Remainder(es: seq<Event>): (rest: seq<Event>)
    requires es != []
    ensures |rest| < |es|
  {
    assert es[..Span(es)][0] == es[0];
    Others(es) + es[Span(es)..]
  }

  /** Handler by handler, in the order in which they begin. */
  function Serialized(es: seq<Event>): seq<Event>
    decreases |es|
  {
    if es == [] then [] else Block(es) + Serialized(Remainder(es))
  }

  /** At most one handler is in flight at every moment. */
  predicate IsSerial(s: Sys, es: seq<Event>)
    decreases |es|
  {
    |s.flights| <= 1 && (es == [] || IsSerial(Next(s, es[0]), es[1..]))
  }

  /** All handlers in flight are the owner's. */
  predicate OnlyFlightsOf(s: Sys, who: Owner) {
    forall t | t in s.flights :: Sink(t.id) == who
  }

  lemma AtMostOne(s: Sys, who: Owner)
    requires NoOverlap(s) && OnlyFlightsOf(s, who)
    ensures |s.flights| <= 1
  {
    if |s.flights| > 0 {
      var t :| t in s.flights;
      assert s.flights.Keys == {t};
      assert |s.flights.Keys| == 1;
    }
  }

  lemma {:induction false} OwnBlockIsSerial(s: Sys, fs: seq<Event>, who: Owner)
    requires Ordered(s) && OrderlyRun(s, fs) && OnlyFlightsOf(s, who)
    requires forall i | 0 <= i < |fs| :: Who(fs[i]) == who
    ensures IsSerial(s, fs) && OnlyFlightsOf(Run(s, fs), who)
    decreases |fs|
  {
    AtMostOne(s, who);
    if fs == [] {
    } else {
      NextOrdered(s, fs[0]);
      OwnBlockIsSerial(Next(s, fs[0]), fs[1..], who);
    }
  }

  lemma {:induction false} SerialConcat(s: Sys, es: seq<Event>, fs: seq<Event>)
    requires IsSerial(s, es) && IsSerial(Run(s, es), fs)
    ensures IsSerial(s, es + fs)
    decreases |es|
  {
    if es == [] {
      assert es + fs == fs;
    } else {
      SerialConcat(Next(s, es[0]), es[1..], fs);
      assert (es + fs)[1..] == es[1..] + fs;
    }
  }

  /** Events of other owners leave an owner's handlers in flight. */
  lemma {:induction false} FlightsKept(s: Sys, es: seq<Event>, t: Ticket)
    requires t in s.flights && forall i | 0 <= i < |es| :: Who(es[i]) != Sink(t.id)
    ensures t in Run(s, es).flights
    decreases |es|
  {
    if es == [] {
    } else {
      FlightsKept(Next(s, es[0]), es[1..], t);
    }
  }

  lemma {:induction false} WithoutIsOthers(es: seq<Event>, who: Owner)
    ensures forall i | 0 <= i < |Without(es, who)| :: Who(Without(es, who)[i]) != who
  {
    if es == [] {
    } else {
      WithoutIsOthers(es[1..], who);
    }
  }

  lemma {:induction false} PartsAreAll(es: seq<Event>, who: Owner)
    ensures multiset(Only(es, who)) + multiset(Without(es, who)) == multiset(es)
  {
    if es == [] {
    } else {
      var e, own, others := es[0], Only(es[1..], who), Without(es[1..], who);
      PartsAreAll(es[1..], who);
      assert es == [e] + es[1..];
      assert multiset(es) == multiset{e} + multiset(es[1..]);
      assert multiset([e] + own) == multiset{e} + multiset(own);
      assert multiset([e] + others) == multiset{e} + multiset(others);
    }
  }

  /** A handler that is not in flight at the end was ended on the way. */
  lemma {:induction false} EndIsReached(s: Sys, es: seq<Event>, t: Ticket)
    requires t in s.flights && t !in Run(s, es).flights
    ensures var n := UntilEnd(es, t); n > 0 && es[n - 1] == End(t)
    decreases |es|
  {
    if es[0] == End(t) {
    } else {
      EndIsReached(Next(s, es[0]), es[1..], t);
    }
  }

  /** After the end of a handler none of its id is in flight. */
  lemma NoneAfterEnd(s: Sys, t: Ticket)
    requires Ordered(s) && Enabled(s, End(t))
    ensures forall u | u in Next(s, End(t)).flights :: u.id != t.id
  {
  }

  /** At the end of the first stretch no handler of its owner is in flight. */
  lemma OwnerEnded(s: Sys, es: seq<Event>)
    requires Ordered(s) && OrderlyRun(s, es) && es != [] && s.flights == map[] && Run(s, es).flights == map[]
    ensures forall u | u in Run(s, es[..Span(es)]).flights :: Sink(u.id) != Who(es[0])
  {
    var n := Span(es);
    if es[0].Begin? {
      var t := es[0].t;
      EndIsReached(Next(s, es[0]), es[1..], t);
      assert es == es[..n - 1] + es[n - 1..];
      OrderlyConcat(s, es[..n - 1], es[n - 1..]);
      RunOrdered(s, es[..n - 1]);
      RunOneMore(s, es, n - 1);
      NoneAfterEnd(Run(s, es[..n - 1]), t);
    } else {
      RunOneMore(s, es, 0);
      assert Run(s, es[..0]) == s;
    }
  }

  lemma BlockGoesFirst(s: Sys, es: seq<Event>)
    requires Ordered(s) && OrderlyRun(s, es) && es != []
    ensures OrderlyRun(s, Block(es) + Remainder(es)) && Run(s, Block(es) + Remainder(es)) == Run(s, es)
    ensures OrderlyRun(s, es[..Span(es)]) && OrderlyRun(s, Block(es) + Others(es))
    ensures Run(s, Block(es) + Others(es)) == Run(s, es[..Span(es)])
  {
    var p, back := es[..Span(es)], es[Span(es)..];
    assert es == p + back;
    OrderlyConcat(s, p, back);
    RunOfConcat(s, p, back);
    Gather(s, p, Who(es[0]));
    var front := Block(es) + Others(es);
    OrderlyConcat(s, front, back);
    RunOfConcat(s, front, back);
    assert Block(es) + Remainder(es) == front + back;
  }

  /** After the first block no handler is in flight, and the block itself is serial. */
  lemma BlockIsSerial(s: Sys, es: seq<Event>)
    requires Ordered(s) && OrderlyRun(s, es) && es != [] && s.flights == map[] && Run(s, es).flights == map[]
    ensures IsSerial(s, Block(es)) && OrderlyRun(s, Block(es)) && Run(s, Block(es)).flights == map[]
  {
    var who, p := Who(es[0]), es[..Span(es)];
    BlockGoesFirst(s, es);
    OrderlyConcat(s, Block(es), Others(es));
    RunOfConcat(s, Block(es), Others(es));
    OnlyIsOwn(p, who);
    OwnBlockIsSerial(s, Block(es), who);
    WithoutIsOthers(p, who);
    OwnerEnded(s, es);
    forall u | u in Run(s, Block(es)).flights ensures false {
      FlightsKept(Run(s, Block(es)), Others(es), u);
    }
  }

  lemma {:induction false} SerializedReaches(s: Sys, es: seq<Event>)
    requires Ordered(s) && OrderlyRun(s, es) && s.flights == map[] && Run(s, es).flights == map[]
    ensures OrderlyRun(s, Serialized(es)) && Run(s, Serialized(es)) == Run(s, es)
    ensures IsSerial(s, Serialized(es))
    decreases |es|
  {
    if es == [] {
    } else {
      var own, rest := Block(es), Remainder(es);
      BlockGoesFirst(s, es);
      BlockIsSerial(s, es);
      OrderlyConcat(s, own, rest);
      RunOfConcat(s, own, rest);
      RunOrdered(s, own);
      SerializedReaches(Run(s, own), rest);
      OrderlyConcat(s, own, Serialized(rest));
      RunOfConcat(s, own, Serialized(rest));
      SerialConcat(s, own, Serialized(rest));
    }
  }

  lemma TogetherAgain(es: seq<Event>, fs: seq<Event>)
    ensures multiset(es + fs) == multiset(es) + multiset(fs)
  {
  }

  lemma BlockReorders(es: seq<Event>)
    requires es != []
    ensures multiset(Block(es)) + multiset(Remainder(es)) == multiset(es)
  {
    var p, back := es[..Span(es)], es[Span(es)..];
    PartsAreAll(p, Who(es[0]));
    TogetherAgain(p, back);
    TogetherAgain(Others(es), back);
    assert es == p + back;
  }

  lemma {:induction false} SerializedIsReordering(es: seq<Event>)
    ensures multiset(Serialized(es)) == multiset(es)
    decreases |es|
  {
    if es == [] {
    } else {
      BlockReorders(es);
      SerializedIsReordering(Remainder(es));
      TogetherAgain(Block(es), Serialized(Remainder(es)));
    }
  }

  lemma {:induction false} OnlyOfConcat(es: seq<Event>, fs: seq<Event>, who: Owner)
    ensures Only(es + fs, who) == Only(es, who) + Only(fs, who)
  {
    if es == [] {
      assert es + fs == fs;
    } else {
      OnlyOfConcat(es[1..], fs, who);
      assert (es + fs)[1..] == es[1..] + fs;
    }
  }

  lemma {:induction false} OnlyOfOnly(es: seq<Event>, who: Owner, x: Owner)
    ensures Only(Only(es, who), x) == if x == who then Only(es, who) else []
    ensures Only(Without(es, who), x) == if x == who then [] else Only(es, x)
  {
    if es == [] {
    } else {
      OnlyOfOnly(es[1..], who, x);
    }
  }

  lemma BlockAndOnly(es: seq<Event>, x: Owner)
    requires es != []
    ensures Only(es, x) == Only(Block(es), x) + Only(Remainder(es), x)
  {
    var who, p, back := Who(es[0]), es[..Span(es)], es[Span(es)..];
    assert es == p + back;
    OnlyOfConcat(p, back, x);
    OnlyOfConcat(Others(es), back, x);
    OnlyOfOnly(p, who, x);
  }

  /** Each owner's events keep their order, so each handler gets the same answers in the same order. */
  lemma {:induction false} SerializedKeepsOwnOrder(es: seq<Event>, x: Owner)
    ensures Only(Serialized(es), x) == Only(es, x)
    decreases |es|
  {
    if es == [] {
    } else {
      SerializedKeepsOwnOrder(Remainder(es), x);
      OnlyOfConcat(Block(es), Serialized(Remainder(es)), x);
      BlockAndOnly(es, x);
    }
  }

  // -------------------------------------------------------------------------
  // Real time
  // -------------------------------------------------------------------------

  function EndOf(e: Event, t: Ticket): nat {
    if e == End(t) then 1 else 0
  }

  /** How often a handler ends in a run. */
  function EndsOf(es: seq<Event>, t: Ticket): nat {
    if es == [] then 0 else EndOf(es[0], t) + EndsOf(es[1..], t)
  }

  /** How often a handler has ended before the y-th event of an owner. */
  function EndsBefore(es: seq<Event>, who: Owner, y: nat, t: Ticket): nat {
    if es == [] || (Who(es[0]) == who && y == 0) then 0
    else EndOf(es[0], t) + EndsBefore(es[1..], who, if Who(es[0]) == who then y - 1 else y, t)
  }

  predicate IsBegin(es: seq<Event>, who: Owner, y: nat) {
    y < |Only(es, who)| && Only(es, who)[y].Begin?
  }

  /** Whatever handler had ended before a handler began has ended before it in the other order too. */
  ghost predicate KeepsRealTime(es: seq<Event>, fs: seq<Event>) {
    forall who, y: nat, t | IsBegin(es, who, y) :: EndsBefore(es, who, y, t) <= EndsBefore(fs, who, y, t)
  }

  lemma {:induction false} EndsBeforeLater(front: seq<Event>, back: seq<Event>, who: Owner, y: nat, t: Ticket)
    requires y >= |Only(front, who)|
    ensures EndsBefore(front + back, who, y, t) == EndsOf(front, t) + EndsBefore(back, who, y - |Only(front, who)|, t)
  {
    if front == [] {
      assert front + back == back;
    } else {
      EndsBeforeLater(front[1..], back, who, if Who(front[0]) == who then y - 1 else y, t);
      assert (front + back)[1..] == front[1..] + back;
    }
  }

  lemma {:induction false} EndsBeforeEarlier(front: seq<Event>, back: seq<Event>, who: Owner, y: nat, t: Ticket)
    requires y < |Only(front, who)|
    ensures EndsBefore(front + back, who, y, t) == EndsBefore(front, who, y, t)
  {
    assert (front + back)[1..] == front[1..] + back;
    if Who(front[0]) == who && y == 0 {
    } else {
      EndsBeforeEarlier(front[1..], back, who, if Who(front[0]) == who then y - 1 else y, t);
    }
  }

  /** With one owner's events in front, at least the same ends come before another owner's event. */
  lemma {:induction false} GatheredBefore(es: seq<Event>, who: Owner, other: Owner, y: nat, t: Ticket)
    requires who != other && y < |Only(es, other)|
    ensures EndsBefore(es, other, y, t) <= EndsOf(Only(es, who), t) + EndsBefore(Without(es, who), other, y, t)
  {
    var e := es[0];
    if Who(e) == other && y == 0 {
    } else {
      GatheredBefore(es[1..], who, other, if Who(e) == other then y - 1 else y, t);
    }
  }

  lemma {:induction false} EndsOfParts(es: seq<Event>, who: Owner, t: Ticket)
    ensures EndsOf(es, t) == EndsOf(Only(es, who), t) + EndsOf(Without(es, who), t)
  {
    if es == [] {
    } else {
      EndsOfParts(es[1..], who, t);
    }
  }

  /** While a handler is in flight no other one of its id begins. */
  lemma {:induction false} NoBeginInFlight(s: Sys, es: seq<Event>, t: Ticket)
    requires OrderlyRun(s, es) && t in s.flights
    ensures forall y | 0 <= y < |Only(es[..UntilEnd(es, t)], Sink(t.id))| ::
              !Only(es[..UntilEnd(es, t)], Sink(t.id))[y].Begin?
    decreases |es|
  {
    var n := UntilEnd(es, t);
    if es == [] {
    } else if es[0] == End(t) {
      assert es[..1][1..] == [];
    } else {
      NoBeginInFlight(Next(s, es[0]), es[1..], t);
      assert es[..n][0] == es[0] && es[..n][1..] == es[1..][..n - 1];
    }
  }

  /** The first block has no later begin. */
  lemma OneBegin(s: Sys, es: seq<Event>, y: nat)
    requires OrderlyRun(s, es) && es != [] && 0 < y < |Block(es)|
    ensures !Block(es)[y].Begin?
  {
    var n, who := Span(es), Who(es[0]);
    var inside := Only(es[1..][..n - 1], who);
    assert es[..n][0] == es[0] && es[..n][1..] == es[1..][..n - 1];
    assert es[0].Begin? || inside == [];
    assert Block(es) == [es[0]] + inside;
    if es[0].Begin? {
      NoBeginInFlight(Next(s, es[0]), es[1..], es[0].t);
      assert n - 1 == UntilEnd(es[1..], es[0].t);
      assert !inside[y - 1].Begin?;
    }
  }

  lemma OwnBlock(es: seq<Event>)
    requires es != []
    ensures Only(Block(es), Who(es[0])) == Block(es) && Only(Others(es), Who(es[0])) == []
  {
    OnlyOfOnly(es[..Span(es)], Who(es[0]), Who(es[0]));
  }

  /** Taking the first block out and in front keeps what ended before a later begin. */
  lemma BlockKeepsRealTime(s: Sys, es: seq<Event>, who: Owner, y: nat, t: Ticket)
    requires OrderlyRun(s, es) && es != [] && IsBegin(es, who, y) && y >= |Only(Block(es), who)|
    ensures IsBegin(Remainder(es), who, y - |Only(Block(es), who)|)
    ensures EndsBefore(es, who, y, t) <=
            EndsOf(Block(es), t) + EndsBefore(Remainder(es), who, y - |Only(Block(es), who)|, t)
  {
    var n, first := Span(es), Who(es[0]);
    var p, back, others := es[..n], es[n..], Others(es);
    assert es == p + back;
    BlockAndOnly(es, who);
    OnlyOfConcat(p, back, who);
    OnlyOfOnly(p, first, who);
    EndsOfParts(p, first, t);
    if who != first && y < |Only(p, who)| {
      EndsBeforeEarlier(p, back, who, y, t);
      EndsBeforeEarlier(others, back, who, y, t);
      GatheredBefore(p, first, who, y, t);
    } else {
      EndsBeforeLater(p, back, who, y, t);
      EndsBeforeLater(others, back, who, y - |Only(Block(es), who)|, t);
    }
  }

  lemma {:induction false} SerializedBefore(s: Sys, es: seq<Event>, who: Owner, y: nat, t: Ticket)
    requires Ordered(s) && OrderlyRun(s, es) && IsBegin(es, who, y)
    ensures EndsBefore(es, who, y, t) <= EndsBefore(Serialized(es), who, y, t)
    decreases |es|
  {
    var own, rest := Block(es), Remainder(es);
    BlockAndOnly(es, who);
    if y < |Only(own, who)| {
      FirstBlockBefore(s, es, who, y, t);
    } else {
      BlockGoesFirst(s, es);
      OrderlyConcat(s, own, rest);
      OrderlyConcat(s, own, Others(es));
      RunOrdered(s, own);
      BlockKeepsRealTime(s, es, who, y, t);
      SerializedBefore(Run(s, own), rest, who, y - |Only(own, who)|, t);
      EndsBeforeLater(own, Serialized(rest), who, y, t);
    }
  }

  /** The only begin in the first block is the first event of the run. */
  lemma FirstBlockBefore(s: Sys, es: seq<Event>, who: Owner, y: nat, t: Ticket)
    requires OrderlyRun(s, es) && es != [] && IsBegin(es, who, y) && y < |Only(Block(es), who)|
    ensures EndsBefore(es, who, y, t) == 0
  {
    BlockAndOnly(es, who);
    OwnBlock(es);
    OnlyOfOnly(es[..Span(es)], Who(es[0]), who);
    if y > 0 {
      OneBegin(s, es, y);
    }
  }

  predicate IsQuiet(s: Sys) {
    s.flights == map[]
  }

  /**
   * The same events in another order, every owner's own order kept, one handler at a time, no handler moved
   * in front of one that had ended before it began, and to the same end.
   */
  ghost predicate IsSerialForm(s: Sys, es: seq<Event>, fs: seq<Event>) {
    && multiset(fs) == multiset(es)
    && (forall who :: Only(fs, who) == Only(es, who))
    && KeepsRealTime(es, fs)
    && OrderlyRun(s, fs) && IsSerial(s, fs)
    && Run(s, fs) == Run(s, es)
  }

  lemma QuietReduction(s: Sys, es: seq<Event>) returns (fs: seq<Event>)
    requires Ordered(s) && OrderlyRun(s, es) && IsQuiet(s) && IsQuiet(Run(s, es))
    ensures IsSerialForm(s, es, fs)
  {
    fs := Serialized(es);
    SerializedIsReordering(es);
    SerializedReaches(s, es);
    forall who {
      SerializedKeepsOwnOrder(es, who);
    }
    forall who, y: nat, t | IsBegin(es, who, y) {
      SerializedBefore(s, es, who, y, t);
    }
  }

  predicate AreEnds(es: seq<Event>) {
    forall i | 0 <= i < |es| :: es[i].End?
  }

  /** Dropping every handler in flight touches no store and no process. */
  lemma {:induction false} EndAll(s: Sys) returns (ends: seq<Event>)
    ensures AreEnds(ends) && OrderlyRun(s, ends)
    ensures Run(s, ends) == s.(flights := map[])
    decreases |s.flights|
  {
    if s.flights == map[] {
      ends := [];
    } else {
      var t :| t in s.flights;
      var s' := Next(s, End(t));
      assert s.flights.Keys == s'.flights.Keys + {t};
      assert |s.flights| == |s.flights.Keys| && |s'.flights| == |s'.flights.Keys|;
      var rest := EndAll(s');
      ends := [End(t)] + rest;
      FirstStep(s, End(t), rest);
    }
  }

  /**
   * The reduction. Every orderly interleaved run from a state with no handler in flight, followed by the
   * end of each handler still in flight, has a serial form: the same events, every owner's in their own
   * order, one handler at a time, in an order that real time allows. It reaches the table, store, files
   * and processes of the original run.
   */
  lemma Reduction(s: Sys, es: seq<Event>) returns (ends: seq<Event>, fs: seq<Event>)
    requires Ordered(s) && OrderlyRun(s, es) && IsQuiet(s)
    ensures AreEnds(ends) && IsSerialForm(s, es + ends, fs)
    ensures Run(s, fs) == Run(s, es).(flights := map[])
    ensures IsQuiet(Run(s, es)) ==> ends == []
  {
    ends := EndAll(Run(s, es));
    RunOfConcat(s, es, ends);
    OrderlyConcat(s, es, ends);
    fs := QuietReduction(s, es + ends);
  }
}
