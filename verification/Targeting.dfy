/** Whom to approach and with what; only exact ties are left open. */
module Targeting {
  import Arithmetic
  import opened Domain
  import opened Counterparties
  import opened Reserves

  datatype Candidate = Candidate(station: StationId, want: Resource, pay: Resource)

  type Wanted = map<Resource, nat>

  predicate Needs(wanted: Wanted, r: Resource) { r in wanted && wanted[r] > 0 }

  /** More urgent, or as urgent and no less wanted. */
  predicate Ahead(u: Urgencies, wanted: Wanted, a: Resource, b: Resource)
    requires a in wanted && b in wanted
  {
    Level(u, a).Rank() > Level(u, b).Rank() || (Level(u, a) == Level(u, b) && wanted[a] >= wanted[b])
  }

  /** One way to get `want`: a live station not already asked, and something to pay with. */
  predicate IsOption(live: set<StationId>, surplus: Bundle, pending: set<(StationId, Resource)>, c: Candidate) {
    c.station in live && c.pay != c.want && surplus.Get(c.pay) > 0 && (c.station, c.want) !in pending
  }

  // ---- scoring an option ------------------------------------------------------------------------

  const RECENCY_WINDOW: real := 10.0
  const NEUTRAL_RATE: real := 0.5

  function AcceptRate(x: Stats): real {
    if x.sent == 0 then NEUTRAL_RATE else x.accepted as real / x.sent as real
  }

  function Recency(x: Stats, tick: int): real {
    var share := 1.0 - (tick - x.lastAdTick) as real / RECENCY_WINDOW;
    if x.lastAdTick < 0 || share < 0.0 then 0.0 else share
  }

  function PartnerScore(x: Stats, want: Resource, pay: Resource, tick: int): real {
    (if want in x.selling then 3.0 else 0.0) + (if pay in x.seeking then 2.0 else 0.0) + Recency(x, tick) + AcceptRate(x)
  }

  /** What options for one resource are compared on. */
  datatype Key = Key(preferred: bool, score: real, surplus: nat) {
    predicate AtMost(other: Key) {
      if preferred != other.preferred then other.preferred
      else if score != other.score then score < other.score
      else surplus <= other.surplus
    }
  }

  function KeyOf(m: Model, surplus: Bundle, tick: int, preferred: Resource, c: Candidate): Key {
    Key(c.pay == preferred, PartnerScore(m.Of(c.station), c.want, c.pay, tick), surplus.Get(c.pay))
  }

  /** An option no other option for its resource beats. */
  ghost predicate Best(m: Model, surplus: Bundle, tick: int, pending: set<(StationId, Resource)>, preferred: Resource, c: Candidate) {
    && IsOption(m.Live(), surplus, pending, c)
    && forall o: Candidate :: o.want == c.want && IsOption(m.Live(), surplus, pending, o) ==>
         KeyOf(m, surplus, tick, preferred, o).AtMost(KeyOf(m, surplus, tick, preferred, c))
  }

  /** Our own production pays whenever it can. */
  lemma OwnProductionPays(m: Model, surplus: Bundle, tick: int, pending: set<(StationId, Resource)>, preferred: Resource, c: Candidate)
    requires Best(m, surplus, tick, pending, preferred, c) && surplus.Get(preferred) > 0 && preferred != c.want
    ensures c.pay == preferred
  {
    var own := Candidate(c.station, c.want, preferred);
    assert IsOption(m.Live(), surplus, pending, own);
  }

  /** A record as reputation keeps it: no more taken than decided, nothing heard in the future. */
  predicate IsRecord(x: Stats, tick: int) { x.accepted <= x.sent && x.lastAdTick <= tick }

  lemma RecordBounds(x: Stats, tick: int)
    requires IsRecord(x, tick)
    ensures 0.0 <= AcceptRate(x) <= 1.0 && 0.0 <= Recency(x, tick) <= 1.0
  {
    if x.sent > 0 {
      Arithmetic.SmallerShare(0.0, x.accepted as real, x.sent as real);
      Arithmetic.SmallerShare(x.accepted as real, x.sent as real, x.sent as real);
    }
  }

  /** Whoever advertises what we need comes before anyone who does not, however recent or reliable,
      as long as neither or both want what we pay with. */
  lemma SellersFirst(x: Stats, y: Stats, want: Resource, pay: Resource, tick: int)
    requires IsRecord(x, tick) && IsRecord(y, tick)
    requires want in x.selling && want !in y.selling && (pay in y.seeking ==> pay in x.seeking)
    ensures PartnerScore(x, want, pay, tick) > PartnerScore(y, want, pay, tick)
  {
    RecordBounds(x, tick);
    RecordBounds(y, tick);
    hide AcceptRate, Recency;
  }

  /** Wanting what we pay with counts as much as a perfect record heard this very tick. */
  lemma SeekersCount(x: Stats, y: Stats, want: Resource, pay: Resource, tick: int)
    requires IsRecord(x, tick) && y == x.(seeking := x.seeking + {pay}) && pay !in x.seeking
    ensures PartnerScore(y, want, pay, tick) == PartnerScore(x, want, pay, tick) + 2.0
    ensures forall z: Stats :: IsRecord(z, tick) && want !in z.selling && pay !in z.seeking ==> PartnerScore(z, want, pay, tick) <= 2.0
  {
    forall z: Stats | IsRecord(z, tick) && want !in z.selling && pay !in z.seeking ensures PartnerScore(z, want, pay, tick) <= 2.0 {
      RecordBounds(z, tick);
    }
    hide AcceptRate, Recency;
  }

  /** All else equal, whoever was heard later within the last ten ticks comes first. */
  lemma RecentFirst(x: Stats, y: Stats, want: Resource, pay: Resource, tick: int)
    requires y == x.(lastAdTick := y.lastAdTick) && x.lastAdTick < y.lastAdTick && tick - 10 < y.lastAdTick && 0 <= y.lastAdTick
    ensures PartnerScore(x, want, pay, tick) < PartnerScore(y, want, pay, tick)
  {
    assert AcceptRate(x) == AcceptRate(y);
    hide AcceptRate;
  }

  /** All else equal, whoever took more of the offers sent comes first. */
  lemma ReliableFirst(x: Stats, y: Stats, want: Resource, pay: Resource, tick: int)
    requires x == y.(accepted := x.accepted) && x.accepted < y.accepted && x.sent > 0
    ensures PartnerScore(x, want, pay, tick) < PartnerScore(y, want, pay, tick)
  {
    Arithmetic.StrictlySmallerShare(x.accepted as real, y.accepted as real, x.sent as real);
    hide Recency;
    assert Recency(x, tick) == Recency(y, tick) by { SameRecency(x, y, tick); }
  }

  lemma SameRecency(x: Stats, y: Stats, tick: int)
    requires x.lastAdTick == y.lastAdTick
    ensures Recency(x, tick) == Recency(y, tick)
  {
  }

  predicate Serves(cs: seq<Candidate>, r: Resource) {
    exists k :: 0 <= k < |cs| && cs[k].want == r
  }

  ghost predicate RanksBefore(u: Urgencies, wanted: Wanted, cs: seq<Candidate>, i: nat, j: nat)
    requires i < |cs| && j < |cs|
  {
    && cs[i].want != cs[j].want
    && cs[i].want in wanted && cs[j].want in wanted && Ahead(u, wanted, cs[i].want, cs[j].want)
  }

  /** One candidate for each resource that can be had, most urgent first. */
  ghost predicate Ranked(
    m: Model, u: Urgencies, wanted: Wanted, surplus: Bundle, tick: int, pending: set<(StationId, Resource)>,
    preferred: Resource, cs: seq<Candidate>)
  {
    && (forall c :: c in cs ==> Needs(wanted, c.want) && Best(m, surplus, tick, pending, preferred, c))
    && (forall i, j {:trigger RanksBefore(u, wanted, cs, i, j)} :: 0 <= i < j < |cs| ==> RanksBefore(u, wanted, cs, i, j))
    && (forall c: Candidate :: Needs(wanted, c.want) && IsOption(m.Live(), surplus, pending, c) ==> Serves(cs, c.want))
  }

  lemma {:induction false} SomeFirst(u: Urgencies, wanted: Wanted, todo: set<Resource>)
    requires todo != {} && todo <= wanted.Keys
    ensures exists r :: r in todo && forall v :: v in todo ==> Ahead(u, wanted, r, v)
    decreases |todo|
  {
    var r :| r in todo;
    if todo != {r} {
      SomeFirst(u, wanted, todo - {r});
      var best :| best in todo - {r} && forall v :: v in todo - {r} ==> Ahead(u, wanted, best, v);
      if Ahead(u, wanted, best, r) {
        assert forall v :: v in todo ==> Ahead(u, wanted, best, v);
      } else {
        forall v | v in todo ensures Ahead(u, wanted, r, v) {
          if v != r { assert Ahead(u, wanted, best, v); }
        }
      }
    }
  }

  method RankCounterparties(
    m: Model, u: Urgencies, wanted: Wanted, surplus: Bundle, tick: int, pending: set<(StationId, Resource)>, preferred: Resource)
    returns (cs: seq<Candidate>)
    ensures Ranked(m, u, wanted, surplus, tick, pending, preferred, cs)
  {
    hide Best, IsOption;
    cs := [];
    var todo := set r | r in wanted && wanted[r] > 0;
    while todo != {}
      invariant todo <= set r | r in wanted && wanted[r] > 0
      invariant forall c :: c in cs ==> Needs(wanted, c.want) && Best(m, surplus, tick, pending, preferred, c) && c.want !in todo
      invariant forall i, v :: 0 <= i < |cs| && v in todo ==> Ahead(u, wanted, cs[i].want, v)
      invariant forall i, j {:trigger RanksBefore(u, wanted, cs, i, j)} :: 0 <= i < j < |cs| ==> RanksBefore(u, wanted, cs, i, j)
      invariant forall c: Candidate :: Needs(wanted, c.want) && c.want !in todo && IsOption(m.Live(), surplus, pending, c) ==>
                  Serves(cs, c.want)
      decreases |todo|
    {
      SomeFirst(u, wanted, todo);
      var w :| w in todo && forall v :: v in todo ==> Ahead(u, wanted, w, v);
      todo := todo - {w};
      var found := BestOption(m, surplus, tick, pending, preferred, w);
      if found.Some? {
        ghost var before := cs;
        cs := cs + [found.value];
        forall i, j | 0 <= i < j < |cs| ensures RanksBefore(u, wanted, cs, i, j) {
          if j < |before| { assert RanksBefore(u, wanted, before, i, j); } else { assert cs[i] in before; }
        }
        forall c: Candidate | Needs(wanted, c.want) && c.want !in todo && IsOption(m.Live(), surplus, pending, c)
          ensures Serves(cs, c.want)
        {
          if c.want == w {
            assert cs[|before|].want == w;
          } else {
            assert Serves(before, c.want);
            var k :| 0 <= k < |before| && before[k].want == c.want;
            assert cs[k].want == c.want;
          }
        }
      }
    }
  }

  /** The best option for one resource over every live station and every resource to pay with. */
  method BestOption(m: Model, surplus: Bundle, tick: int, pending: set<(StationId, Resource)>, preferred: Resource, want: Resource)
    returns (found: Option<Candidate>)
    ensures found.None? ==> forall c: Candidate :: c.want == want ==> !IsOption(m.Live(), surplus, pending, c)
    ensures found.Some? ==> found.value.want == want && Best(m, surplus, tick, pending, preferred, found.value)
  {
    found := None;
    var todo := m.Live();
    while todo != {}
      invariant todo <= m.Live()
      invariant Leads(m, surplus, tick, pending, preferred, want, m.Live() - todo, found)
      decreases |todo|
    {
      var p :| p in todo;
      ghost var seen := m.Live() - todo;
      todo := todo - {p};
      found := BetterWith(m, surplus, tick, pending, preferred, want, p, seen, found);
      assert m.Live() - todo == seen + {p};
    }
    assert m.Live() - todo == m.Live();
  }

  /** `best` is an option among the stations seen that none of theirs beats. */
  ghost predicate Leads(
    m: Model, surplus: Bundle, tick: int, pending: set<(StationId, Resource)>, preferred: Resource, want: Resource,
    seen: set<StationId>, best: Option<Candidate>)
  {
    && (best.Some? ==> best.value.want == want && best.value.station in seen && IsOption(m.Live(), surplus, pending, best.value))
    && forall o: Candidate :: o.want == want && o.station in seen && IsOption(m.Live(), surplus, pending, o) ==>
         best.Some? && KeyOf(m, surplus, tick, preferred, o).AtMost(KeyOf(m, surplus, tick, preferred, best.value))
  }

  /** Of a station seen before, or of this one with one of the first `i` resources. */
  predicate Met(o: Candidate, seen: set<StationId>, p: StationId, i: nat)
    requires i <= |RESOURCES|
  {
    o.station in seen || (o.station == p && o.pay in RESOURCES[..i])
  }

  method BetterWith(
    m: Model, surplus: Bundle, tick: int, pending: set<(StationId, Resource)>, preferred: Resource, want: Resource,
    p: StationId, ghost seen: set<StationId>, best: Option<Candidate>)
    returns (found: Option<Candidate>)
    requires p in m.Live() && p !in seen && Leads(m, surplus, tick, pending, preferred, want, seen, best)
    ensures Leads(m, surplus, tick, pending, preferred, want, seen + {p}, found)
  {
    hide PartnerScore;
    found := best;
    for i := 0 to |RESOURCES|
      invariant found.Some? ==>
        found.value.want == want && found.value.station in seen + {p} && IsOption(m.Live(), surplus, pending, found.value)
      invariant forall o: Candidate :: o.want == want && IsOption(m.Live(), surplus, pending, o) && Met(o, seen, p, i) ==>
                  found.Some? && KeyOf(m, surplus, tick, preferred, o).AtMost(KeyOf(m, surplus, tick, preferred, found.value))
    {
      assert RESOURCES[..i + 1] == RESOURCES[..i] + [RESOURCES[i]];
      var option := Candidate(p, want, RESOURCES[i]);
      if IsOption(m.Live(), surplus, pending, option)
         && (found.None? || !KeyOf(m, surplus, tick, preferred, option).AtMost(KeyOf(m, surplus, tick, preferred, found.value))) {
        found := Some(option);
      }
    }
    forall r: Resource ensures r in RESOURCES[..3] {
      assert RESOURCES[0] == Water && RESOURCES[1] == Food && RESOURCES[2] == Components;
      match r case Water => case Food => case Components =>
    }
  }
}
