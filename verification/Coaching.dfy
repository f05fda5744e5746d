/**
  Coaching cards: a bounded list of active cards ranked by priority, transcript
  revision and a reversed label key. A full list gives up its weakest card to a
  stronger one. Over any admissions the list holds the strongest ones offered.
 */
module Coaching {
  import opened Common
  import opened StableSort

  const MAX_CODE_POINT := 0x10FFFF

  type CodePoint = n: nat | n <= MAX_CODE_POINT

  type Text = seq<CodePoint>

  /** A string together with its case-folded form. */
  datatype Name = Name(text: Text, folded: Text)

  datatype Priority = LOW | MEDIUM | HIGH | CRITICAL

  datatype Source = RULE | CLASSIFICATION | BOTH | LLM

  datatype Lifecycle = PROVISIONAL | CONFIRMED | WITHDRAWN

  datatype Card = Card(id: Name, action: Text, priority: Priority, source: Source, lifecycle: Lifecycle,
                       labelId: Option<Name>, revision: int, displayOrder: nat, createdAt: int,
                       modelId: Option<Text>, profileId: Option<Text>)

  // ----- Rank -----

  /** Python's order on strings: by code point, a proper prefix first. */
  predicate TextLess(a: Text, b: Text) {
    if b == [] then false
    else if a == [] then true
    else if a[0] != b[0] then a[0] < b[0]
    else TextLess(a[1..], b[1..])
  }

  function Reversed(t: Text): (r: Text)
    ensures |r| == |t|
  {
    seq(|t|, i requires 0 <= i < |t| => MAX_CODE_POINT - t[i])
  }

  datatype Rank = Rank(priority: nat, revision: int, key: Text)

  function PriorityRank(p: Priority): nat {
    match p
    case LOW => 0 case MEDIUM => 1 case HIGH => 2 case CRITICAL => 3
  }

  function RankOf(c: Card): Rank {
    var named := if c.labelId.Some? && c.labelId.value.text != [] then c.labelId.value else c.id;
    Rank(PriorityRank(c.priority), c.revision, Reversed(named.folded))
  }

  predicate RankLess(r: Rank, s: Rank) {
    if r.priority != s.priority then r.priority < s.priority
    else if r.revision != s.revision then r.revision < s.revision
    else TextLess(r.key, s.key)
  }

  lemma {:induction false} TextLessIsTotal(a: Text, b: Text)
    ensures !TextLess(a, a)
    ensures TextLess(a, b) ==> !TextLess(b, a)
    ensures TextLess(a, b) || a == b || TextLess(b, a)
  {
    if a != [] {
      TextLessIsTotal(a[1..], if b == [] then [] else b[1..]);
      if b != [] && a[0] == b[0] && a[1..] == b[1..] {
        assert a == [a[0]] + a[1..] && b == [b[0]] + b[1..];
      }
    }
  }

  lemma {:induction false} TextLessTransitive(a: Text, b: Text, c: Text)
    requires TextLess(a, b) && TextLess(b, c)
    ensures TextLess(a, c)
  {
    if a != [] && a[0] == b[0] == c[0] {
      TextLessTransitive(a[1..], b[1..], c[1..]);
    }
  }

  /** Ranks are totally ordered: two cards tie only when all three parts agree. */
  lemma {:induction false} RankLessIsTotal(r: Rank, s: Rank)
    ensures !RankLess(r, r)
    ensures RankLess(r, s) ==> !RankLess(s, r)
    ensures RankLess(r, s) || r == s || RankLess(s, r)
  {
    TextLessIsTotal(r.key, s.key);
  }

  lemma {:induction false} RankLessTransitive(r: Rank, s: Rank, t: Rank)
    requires RankLess(r, s) && RankLess(s, t)
    ensures RankLess(r, t)
  {
    if r.priority == s.priority == t.priority && r.revision == s.revision == t.revision {
      TextLessTransitive(r.key, s.key, t.key);
    }
  }

  lemma {:induction false} ReversedIsInjective(a: Text, b: Text)
    ensures Reversed(a) == Reversed(b) <==> a == b
  {
    if Reversed(a) == Reversed(b) {
      assert |a| == |Reversed(a)| == |b|;
      forall i | 0 <= i < |a| ensures a[i] == b[i] {
        assert Reversed(a)[i] == Reversed(b)[i];
      }
    }
  }

  lemma {:induction false} ReversedTail(t: Text)
    requires t != []
    ensures Reversed(t)[0] == MAX_CODE_POINT - t[0] && Reversed(t)[1..] == Reversed(t[1..])
  {
  }

  /**
    The reversed key turns the order round exactly for the pairs where neither string is a
    proper prefix of the other; a proper prefix still comes first.
   */
  lemma {:induction false} ReversedTurnsTheOrder(a: Text, b: Text)
    ensures TextLess(Reversed(a), Reversed(b)) == (if a < b then true else if b < a then false else TextLess(b, a))
    ensures TextLess(Reversed(a), Reversed(b)) == TextLess(b, a) <==> !(a < b) && !(b < a)
  {
    if a == [] || b == [] {
    } else {
      ReversedTail(a);
      ReversedTail(b);
      if a[0] == b[0] {
        ReversedTurnsTheOrder(a[1..], b[1..]);
        assert a == [a[0]] + a[1..] && b == [b[0]] + b[1..];
        assert (a < b) == (a[1..] < b[1..]) && (b < a) == (b[1..] < a[1..]);
        PrefixComesFirst(a[1..], b[1..]);
        PrefixComesFirst(b[1..], a[1..]);
      } else {
        assert !(a < b) && !(b < a);
      }
    }
  }

  lemma {:induction false} PrefixComesFirst(a: Text, b: Text)
    ensures a < b ==> TextLess(a, b) && !TextLess(b, a)
  {
    if a < b && a != [] {
      assert b[..|a|] == a;
      assert b[1..][..|a| - 1] == a[1..];
      PrefixComesFirst(a[1..], b[1..]);
    }
  }

  // ----- Sorted by rank, strongest first -----

  predicate Stronger(r: Rank, s: Rank) {
    RankLess(s, r)
  }

  predicate StrongerCard(c: Card, d: Card) {
    Stronger(RankOf(c), RankOf(d))
  }

  function Ranks(cards: seq<Card>): (r: seq<Rank>)
    ensures |r| == |cards| && forall i :: 0 <= i < |r| ==> r[i] == RankOf(cards[i])
  {
    seq(|cards|, i requires 0 <= i < |cards| => RankOf(cards[i]))
  }

  lemma {:induction false} StrongerIsStrictWeak()
    ensures StrictWeak(Stronger)
  {
    forall a, b | Stronger(a, b) ensures !Stronger(b, a) {
      RankLessIsTotal(a, b);
    }
    forall a, b, c | Stronger(a, c) ensures Stronger(a, b) || Stronger(b, c) {
      RankLessIsTotal(a, b);
      RankLessIsTotal(b, c);
      if RankLess(a, b) && RankLess(b, c) {
        RankLessTransitive(a, b, c);
        RankLessIsTotal(a, c);
      }
      if a == b || b == c {
        RankLessIsTotal(a, c);
      }
    }
  }

  lemma {:induction false} StrongerCardIsStrictWeak()
    ensures StrictWeak(StrongerCard)
  {
    StrongerIsStrictWeak();
    assert forall c, d :: StrongerCard(c, d) == Stronger(RankOf(c), RankOf(d));
  }

  /** Cards are kept in the order of their ranks. */
  lemma {:induction false} InsertByRank(cards: seq<Card>, c: Card)
    ensures Ranks(Insert(cards, c, StrongerCard)) == Insert(Ranks(cards), RankOf(c), Stronger)
  {
    hide RankLess;
    hide RankOf;
    RanksSnoc(cards, c);
    if cards != [] {
      var front, last := cards[..|cards| - 1], cards[|cards| - 1];
      assert cards == front + [last];
      RanksSnoc(front, last);
      assert Ranks(cards)[..|cards| - 1] == Ranks(front);
      if StrongerCard(c, last) {
        InsertByRank(front, c);
        RanksSnoc(Insert(front, c, StrongerCard), last);
      }
    }
  }

  lemma {:induction false} RanksSnoc(cards: seq<Card>, c: Card)
    ensures Ranks(cards + [c]) == Ranks(cards) + [RankOf(c)]
  {
  }

  // ----- The board -----

  /** All cards as shown, the active ones strongest first, and those that left. */
  datatype Board = Board(cards: seq<Card>, active: seq<Card>, history: seq<Card>)

  const EMPTY := Board([], [], [])

  /** The first of the weakest cards, as Python's `min` finds it. */
  function Weakest(cards: seq<Card>): nat
    requires cards != []
  {
    FirstLeast(cards, StrongerCard)
  }

  function Without(cards: seq<Card>, id: Text): seq<Card> {
    if cards == [] then []
    else
      var rest := Without(cards[..|cards| - 1], id);
      if cards[|cards| - 1].id.text != id then rest + [cards[|cards| - 1]] else rest
  }

  lemma {:induction false} WithoutHolds(cards: seq<Card>, id: Text, c: Card)
    ensures c in Without(cards, id) <==> c in cards && c.id.text != id
  {
    if cards != [] {
      WithoutHolds(cards[..|cards| - 1], id, c);
    }
  }

  /** Every card with the id gives way to `updated`. */
  function Replaced(cards: seq<Card>, id: Text, updated: Card): (r: seq<Card>)
    ensures |r| == |cards|
    ensures forall i :: 0 <= i < |r| ==> r[i] == if cards[i].id.text == id then updated else cards[i]
  {
    seq(|cards|, i requires 0 <= i < |cards| => if cards[i].id.text == id then updated else cards[i])
  }

  function Find(cards: seq<Card>, id: Text): (r: Option<Card>)
    ensures r.Some? ==> r.value in cards && r.value.id.text == id
    ensures r.None? ==> forall c :: c in cards ==> c.id.text != id
  {
    if cards == [] then None
    else if cards[0].id.text == id then Some(cards[0])
    else Find(cards[1..], id)
  }

  datatype Verdict = Refused | Admitted(replaced: Option<Card>)

  function Placed(b: Board, active: seq<Card>, c: Card): Board {
    b.(cards := b.cards + [c], active := Sort(active + [c], StrongerCard))
  }

  /** Python's `admit_coaching_suggestion`, once its arguments have been checked. */
  function Admit(b: Board, c: Card, maximum: nat): (Board, Verdict)
    requires maximum > 0
  {
    if |b.active| < maximum then (Placed(b, b.active, c), Admitted(None))
    else
      var weakest := b.active[Weakest(b.active)];
      if !StrongerCard(c, weakest) then (b, Refused)
      else
        (Placed(b, Without(b.active, weakest.id.text), c).(history := b.history + [weakest]), Admitted(Some(weakest)))
  }

  function Update(b: Board, c: Card): Option<Board> {
    var existing := Find(b.active, c.id.text);
    if existing.None? then None
    else
      var updated := c.(id := existing.value.id, displayOrder := existing.value.displayOrder);
      Some(b.(cards := Replaced(b.cards, c.id.text, updated),
              active := Sort(Replaced(b.active, c.id.text, updated), StrongerCard)))
  }

  function Withdraw(b: Board, id: Text): (Board, bool) {
    var found := if Find(b.active, id).Some? then Find(b.active, id) else Find(b.cards, id);
    if found.None? then (b, false)
    else
      var withdrawn := found.value.(lifecycle := WITHDRAWN);
      (Board(Replaced(b.cards, id, withdrawn), Without(b.active, id), b.history + [withdrawn]), true)
  }

  // ----- What every operation keeps -----

  ghost predicate DistinctIds(cards: seq<Card>) {
    forall i, j :: 0 <= i < j < |cards| ==> cards[i].id.text != cards[j].id.text
  }

  /** Strongest first, no id twice, and every active card is among the cards shown. */
  ghost predicate Tidy(b: Board) {
    && Ordered(b.active, StrongerCard)
    && DistinctIds(b.active) && DistinctIds(b.cards)
    && forall c :: c in b.active ==> c in b.cards
  }

  ghost predicate Fresh(b: Board, id: Text) {
    forall c :: c in b.cards ==> c.id.text != id
  }

  lemma {:induction false} WithoutDistinct(cards: seq<Card>, id: Text)
    requires DistinctIds(cards)
    ensures DistinctIds(Without(cards, id))
  {
    if cards != [] {
      WithoutDistinct(cards[..|cards| - 1], id);
      forall c | c in Without(cards[..|cards| - 1], id) ensures c.id.text != cards[|cards| - 1].id.text {
        WithoutHolds(cards[..|cards| - 1], id, c);
        assert c in cards[..|cards| - 1];
      }
    }
  }

  lemma {:induction false} InsertDistinct(cards: seq<Card>, c: Card)
    requires DistinctIds(cards) && forall d :: d in cards ==> d.id.text != c.id.text
    ensures DistinctIds(Insert(cards, c, StrongerCard))
  {
    if cards != [] && StrongerCard(c, cards[|cards| - 1]) {
      var last, front := cards[|cards| - 1], Insert(cards[..|cards| - 1], c, StrongerCard);
      InsertDistinct(cards[..|cards| - 1], c);
      forall d | d in front ensures d.id.text != last.id.text {
        assert d in multiset(front);
        assert d in multiset(cards[..|cards| - 1]) || d == c;
      }
    }
  }

  lemma {:induction false} SortDistinct(cards: seq<Card>)
    requires DistinctIds(cards)
    ensures DistinctIds(Sort(cards, StrongerCard))
  {
    if cards != [] {
      var front, last := cards[..|cards| - 1], cards[|cards| - 1];
      SortDistinct(front);
      SortHolds(front, last);
      forall d | d in Sort(front, StrongerCard) ensures d.id.text != last.id.text {
        SortHolds(front, d);
        assert d in front;
      }
      InsertDistinct(Sort(front, StrongerCard), last);
    }
  }

  lemma {:induction false} SortHolds(cards: seq<Card>, c: Card)
    ensures c in Sort(cards, StrongerCard) <==> c in cards
  {
    assert c in multiset(Sort(cards, StrongerCard)) <==> c in multiset(cards);
  }

  lemma {:induction false} PlacedTidy(b: Board, active: seq<Card>, c: Card)
    requires DistinctIds(active) && DistinctIds(b.cards) && forall d :: d in active ==> d in b.cards
    requires Fresh(b, c.id.text)
    ensures Tidy(Placed(b, active, c))
  {
    SortedCards(active + [c]);
    assert DistinctIds(active + [c]);
    SortDistinct(active + [c]);
    forall d | d in Placed(b, active, c).active ensures d in b.cards + [c] {
      SortHolds(active + [c], d);
    }
  }

  lemma {:induction false} AdmitTidy(b: Board, c: Card, maximum: nat)
    requires Tidy(b) && Fresh(b, c.id.text) && maximum > 0
    ensures Tidy(Admit(b, c, maximum).0)
    ensures |b.active| <= maximum ==> |Admit(b, c, maximum).0.active| <= maximum
  {
    if |b.active| < maximum {
      PlacedTidy(b, b.active, c);
    } else {
      var weakest := b.active[Weakest(b.active)];
      var left := Without(b.active, weakest.id.text);
      WithoutDistinct(b.active, weakest.id.text);
      forall d | d in left ensures d in b.active {
        WithoutHolds(b.active, weakest.id.text, d);
      }
      PlacedTidy(b, left, c);
      WithoutShrinks(b.active, weakest);
    }
  }

  lemma {:induction false} WithoutIsNoLonger(cards: seq<Card>, id: Text)
    ensures |Without(cards, id)| <= |cards|
  {
    if cards != [] {
      WithoutIsNoLonger(cards[..|cards| - 1], id);
    }
  }

  lemma {:induction false} WithoutShrinks(cards: seq<Card>, c: Card)
    requires c in cards
    ensures |Without(cards, c.id.text)| < |cards|
  {
    WithoutIsNoLonger(cards[..|cards| - 1], c.id.text);
    if cards[|cards| - 1].id.text != c.id.text {
      assert c in cards[..|cards| - 1];
      WithoutShrinks(cards[..|cards| - 1], c);
    }
  }

  lemma {:induction false} ReplacedDistinct(cards: seq<Card>, id: Text, updated: Card)
    requires DistinctIds(cards) && updated.id.text == id
    ensures DistinctIds(Replaced(cards, id, updated))
  {
  }

  lemma {:induction false} ReplacedMember(cards: seq<Card>, other: seq<Card>, id: Text, updated: Card)
    requires forall c :: c in cards ==> c in other
    ensures forall c :: c in Replaced(cards, id, updated) ==> c in Replaced(other, id, updated)
  {
    forall c | c in Replaced(cards, id, updated) ensures c in Replaced(other, id, updated) {
      var i :| 0 <= i < |cards| && Replaced(cards, id, updated)[i] == c;
      assert cards[i] in other;
      var j :| 0 <= j < |other| && other[j] == cards[i];
      assert Replaced(other, id, updated)[j] == c;
    }
  }

  /** An update re-ranks one active card in place of its old self and admits nothing. */
  lemma {:induction false} UpdateTidy(b: Board, c: Card)
    requires Tidy(b)
    ensures Update(b, c).Some? <==> exists d :: d in b.active && d.id.text == c.id.text
    ensures Update(b, c).Some? ==> Tidy(Update(b, c).value) && |Update(b, c).value.active| == |b.active|
  {
    var existing := Find(b.active, c.id.text);
    if existing.Some? {
      var updated := c.(id := existing.value.id, displayOrder := existing.value.displayOrder);
      var active := Replaced(b.active, c.id.text, updated);
      ReplacedDistinct(b.active, c.id.text, updated);
      ReplacedDistinct(b.cards, c.id.text, updated);
      ReplacedMember(b.active, b.cards, c.id.text, updated);
      SortedCards(active);
      SortDistinct(active);
      forall d | d in Sort(active, StrongerCard) ensures d in Replaced(b.cards, c.id.text, updated) {
        SortHolds(active, d);
      }
    }
  }

  lemma {:induction false} WithoutOrdered(cards: seq<Card>, id: Text)
    requires Ordered(cards, StrongerCard)
    ensures Ordered(Without(cards, id), StrongerCard)
  {
    if cards != [] {
      WithoutOrdered(cards[..|cards| - 1], id);
      var front := Without(cards[..|cards| - 1], id);
      forall i | 0 <= i < |front| ensures !StrongerCard(cards[|cards| - 1], front[i]) {
        WithoutHolds(cards[..|cards| - 1], id, front[i]);
      }
    }
  }

  /** A withdrawal takes the id off the active list for good and leaves one trace in the history. */
  lemma {:induction false} WithdrawTidy(b: Board, id: Text)
    requires Tidy(b)
    ensures Tidy(Withdraw(b, id).0)
    ensures Withdraw(b, id).1 <==> exists c :: c in b.cards && c.id.text == id
    ensures forall c :: c in Withdraw(b, id).0.active <==> c in b.active && c.id.text != id
    ensures Withdraw(b, id).1 ==>
      |Withdraw(b, id).0.history| == |b.history| + 1 && Withdraw(b, id).0.history[|b.history|].id.text == id
  {
    if Withdraw(b, id).1 {
      var found := if Find(b.active, id).Some? then Find(b.active, id) else Find(b.cards, id);
      ReplacedDistinct(b.cards, id, found.value.(lifecycle := WITHDRAWN));
      WithoutDistinct(b.active, id);
      WithoutOrdered(b.active, id);
      forall c ensures c in Withdraw(b, id).0.active <==> c in b.active && c.id.text != id {
        WithoutHolds(b.active, id, c);
      }
      forall c | c in Without(b.active, id) ensures c in Withdraw(b, id).0.cards {
        var i :| 0 <= i < |b.cards| && b.cards[i] == c;
        assert Withdraw(b, id).0.cards[i] == c;
      }
    }
  }

  // ----- The strongest cards -----

  /** A run of admissions: the board, the candidates as stamped, and those turned away. */
  datatype Season = Season(board: Board, offered: seq<Card>, refused: seq<Card>)

  function Stamped(b: Board, c: Card): Card {
    c.(displayOrder := |b.cards|)
  }

  function Offer(s: Season, c: Card, maximum: nat): (t: Season)
    requires maximum > 0
    ensures t.offered == s.offered + [Stamped(s.board, c)]
  {
    var candidate := Stamped(s.board, c);
    var (b, verdict) := Admit(s.board, candidate, maximum);
    Season(b, s.offered + [candidate], if verdict.Refused? then s.refused + [candidate] else s.refused)
  }

  function AdmitAll(offers: seq<Card>, maximum: nat): Season
    requires maximum > 0
  {
    if offers == [] then Season(EMPTY, [], [])
    else Offer(AdmitAll(offers[..|offers| - 1], maximum), offers[|offers| - 1], maximum)
  }

  /** No other card carries this card's id. */
  ghost predicate OnlyOne(cards: seq<Card>, w: nat)
    requires w < |cards|
  {
    forall i :: 0 <= i < |cards| && i != w ==> cards[i].id.text != cards[w].id.text
  }

  lemma {:induction false} DistinctIsOnlyOne(cards: seq<Card>, w: nat)
    requires DistinctIds(cards) && w < |cards|
    ensures OnlyOne(cards, w)
  {
  }

  lemma {:induction false} WithoutOne(cards: seq<Card>, w: nat)
    requires w < |cards| && OnlyOne(cards, w)
    ensures Without(cards, cards[w].id.text) == cards[..w] + cards[w + 1..]
  {
    var last := |cards| - 1;
    if w < last {
      WithoutOne(cards[..last], w);
      assert cards[..last][..w] == cards[..w];
      assert cards[w + 1..] == cards[..last][w + 1..] + [cards[last]];
    } else {
      WithoutAbsent(cards[..last], cards[w].id.text);
    }
  }

  lemma {:induction false} WithoutAbsent(cards: seq<Card>, id: Text)
    requires forall c :: c in cards ==> c.id.text != id
    ensures Without(cards, id) == cards
  {
    if cards != [] {
      WithoutAbsent(cards[..|cards| - 1], id);
    }
  }

  lemma {:induction false} TailTies(cards: seq<Card>, i: nat)
    requires Ordered(cards, StrongerCard) && i < |cards| && Weakest(cards) <= i
    ensures RankOf(cards[i]) == RankOf(cards[Weakest(cards)])
  {
    StrongerCardIsStrictWeak();
    FirstLeastIsLeast(cards, StrongerCard, i);
    TiedRanks(cards[i], cards[Weakest(cards)]);
  }

  lemma {:induction false} TiedRanks(c: Card, d: Card)
    ensures !StrongerCard(c, d) && !StrongerCard(d, c) ==> RankOf(c) == RankOf(d)
  {
    RankLessIsTotal(RankOf(c), RankOf(d));
  }

  lemma {:induction false} DroppedRanks(cards: seq<Card>, w: nat, i: nat)
    requires Ordered(cards, StrongerCard) && cards != [] && w == Weakest(cards) && i < |cards| - 1
    ensures Ranks(cards[..w] + cards[w + 1..])[i] == Ranks(cards)[i]
  {
    if w <= i {
      TailTies(cards, i);
      TailTies(cards, i + 1);
      assert (cards[..w] + cards[w + 1..])[i] == cards[i + 1];
    } else {
      assert (cards[..w] + cards[w + 1..])[i] == cards[i];
    }
  }

  lemma {:induction false} AllButOneRank(cards: seq<Card>, w: nat)
    requires Ordered(cards, StrongerCard) && cards != [] && w == Weakest(cards)
    ensures Ranks(cards[..w] + cards[w + 1..]) == Ranks(cards)[..|cards| - 1]
  {
    var left := Ranks(cards[..w] + cards[w + 1..]);
    forall i | 0 <= i < |cards| - 1 ensures left[i] == Ranks(cards)[i] {
      DroppedRanks(cards, w, i);
    }
  }

  lemma {:induction false} AllButOne(cards: seq<Card>, w: nat)
    requires w < |cards|
    ensures multiset(cards) == multiset(cards[..w] + cards[w + 1..]) + multiset{cards[w]}
  {
    assert cards == cards[..w] + [cards[w]] + cards[w + 1..];
  }

  /** Giving up the weakest card of a sorted list drops the last of its ranks. */
  lemma {:induction false} WeakestLeaves(cards: seq<Card>, left: seq<Card>)
    requires cards != [] && Ordered(cards, StrongerCard) && DistinctIds(cards)
    requires left == Without(cards, cards[Weakest(cards)].id.text)
    ensures RankOf(cards[Weakest(cards)]) == RankOf(cards[|cards| - 1])
    ensures Ranks(left) == Ranks(cards)[..|cards| - 1]
    ensures multiset(cards) == multiset(left) + multiset{cards[Weakest(cards)]}
  {
    hide StrongerCard;
    hide RankOf;
    hide DistinctIds;
    hide OnlyOne;
    hide Ordered;
    hide Without;
    DistinctIsOnlyOne(cards, Weakest(cards));
    WithoutOne(cards, Weakest(cards));
    TailTies(cards, |cards| - 1);
    AllButOneRank(cards, Weakest(cards));
    AllButOne(cards, Weakest(cards));
  }

  /** The ranks on the board after one admission: the best of what was there and the new one. */
  lemma {:induction false} AdmitKeepsTheBest(b: Board, c: Card, maximum: nat, all: seq<Rank>)
    requires Tidy(b) && maximum > 0 && Ordered(all, Stronger)
    requires Ranks(b.active) == all[..Min(maximum, |all|)]
    ensures Ranks(Admit(b, c, maximum).0.active) == Insert(all, RankOf(c), Stronger)[..Min(maximum, |all| + 1)]
  {
    hide StrongerCard;
    hide Insert;
    hide RankOf;
    hide Ordered;
    hide DistinctIds;
    assert |b.active| == |Ranks(b.active)| == Min(maximum, |all|);
    if |b.active| < maximum {
      PlacedRanks(b.active, c);
      assert all[..|all|] == all;
      assert Insert(all, RankOf(c), Stronger)[..|all| + 1] == Insert(all, RankOf(c), Stronger);
    } else {
      FullListKeepsTheBest(b.active, c, all);
    }
  }

  lemma {:induction false} FullListKeepsTheBest(active: seq<Card>, c: Card, all: seq<Rank>)
    requires active != [] && Ordered(active, StrongerCard) && DistinctIds(active) && Ordered(all, Stronger)
    requires |active| <= |all| && Ranks(active) == all[..|active|]
    ensures var weakest := active[Weakest(active)];
            Insert(all, RankOf(c), Stronger)[..|active|]
            == if StrongerCard(c, weakest) then Ranks(Sort(Without(active, weakest.id.text) + [c], StrongerCard))
               else Ranks(active)
  {
    hide RankLess;
    hide RankOf;
    hide Insert;
    hide DistinctIds;
    var weakest := active[Weakest(active)];
    var left := Without(active, weakest.id.text);
    LastRankLeaves(active, left, all);
    RankInsertPrefix(all, RankOf(c), |active|);
    PlacedRanks(left, c);
  }

  lemma {:induction false} LastRankLeaves(active: seq<Card>, left: seq<Card>, all: seq<Rank>)
    requires active != [] && Ordered(active, StrongerCard) && DistinctIds(active)
    requires left == Without(active, active[Weakest(active)].id.text)
    requires |active| <= |all| && Ranks(active) == all[..|active|]
    ensures Ordered(left, StrongerCard) && Ranks(left) == all[..|active| - 1]
    ensures RankOf(active[Weakest(active)]) == all[|active| - 1]
  {
    WeakestLeaves(active, left);
    WithoutOrdered(active, active[Weakest(active)].id.text);
    assert Ranks(active)[|active| - 1] == all[|active| - 1];
    assert all[..|active|][..|active| - 1] == all[..|active| - 1];
  }

  lemma {:induction false} RankInsertPrefix(all: seq<Rank>, r: Rank, k: nat)
    requires Ordered(all, Stronger) && 0 < k <= |all|
    ensures Insert(all, r, Stronger)[..k]
         == if Stronger(r, all[k - 1]) then Insert(all[..k - 1], r, Stronger) else all[..k]
  {
    StrongerIsStrictWeak();
    InsertPrefix(all, r, Stronger, k);
  }

  lemma {:induction false} SortedRanks(all: seq<Rank>)
    ensures Ordered(Sort(all, Stronger), Stronger)
  {
    StrongerIsStrictWeak();
    SortOrdered(all, Stronger);
  }

  lemma {:induction false} SortedCards(cards: seq<Card>)
    ensures Ordered(Sort(cards, StrongerCard), StrongerCard)
  {
    StrongerCardIsStrictWeak();
    SortOrdered(cards, StrongerCard);
  }

  lemma {:induction false} PlacedRanks(active: seq<Card>, c: Card)
    requires Ordered(active, StrongerCard)
    ensures Ranks(Sort(active + [c], StrongerCard)) == Insert(Ranks(active), RankOf(c), Stronger)
  {
    SortOfOneMore(active, c, StrongerCard);
    InsertByRank(active, c);
  }

  lemma {:induction false} AdmitConserves(b: Board, c: Card, maximum: nat)
    requires Tidy(b) && maximum > 0
    ensures var (after, verdict) := Admit(b, c, maximum);
            && (verdict.Refused? ==> after == b)
            && (verdict.Admitted? ==>
                  && multiset(after.active) + multiset(after.history)
                     == multiset(b.active) + multiset(b.history) + multiset{c}
                  && after.cards == b.cards + [c])
  {
    hide StrongerCard;
    hide Insert;
    hide DistinctIds;
    if |b.active| >= maximum {
      WeakestLeaves(b.active, Without(b.active, b.active[Weakest(b.active)].id.text));
    }
  }

  ghost predicate DrawnFrom(cards: seq<Card>, offers: seq<Card>) {
    forall c :: c in cards ==> exists i :: 0 <= i < |offers| && offers[i].id.text == c.id.text
  }

  lemma {:induction false} DrawnIsFresh(b: Board, offers: seq<Card>, n: nat)
    requires n < |offers| && DistinctIds(offers) && DrawnFrom(b.cards, offers[..n])
    ensures Fresh(b, offers[n].id.text)
  {
  }

  lemma {:induction false} EmptyIsTidy()
    ensures Tidy(EMPTY) && DrawnFrom(EMPTY.cards, [])
  {
  }

  lemma {:induction false} SeasonTidy(offers: seq<Card>, maximum: nat)
    requires maximum > 0 && DistinctIds(offers)
    ensures Tidy(AdmitAll(offers, maximum).board) && DrawnFrom(AdmitAll(offers, maximum).board.cards, offers)
  {
    hide Tidy;
    hide Admit;
    if offers == [] {
      EmptyIsTidy();
    } else {
      var n := |offers| - 1;
      var s := AdmitAll(offers[..n], maximum);
      var c := Stamped(s.board, offers[n]);
      assert DistinctIds(offers[..n]);
      SeasonTidy(offers[..n], maximum);
      DrawnIsFresh(s.board, offers, n);
      AdmitTidy(s.board, c, maximum);
      AdmitShows(s.board, c, maximum);
      DrawnGrows(s.board.cards, c, offers);
    }
  }

  lemma {:induction false} AdmitShows(b: Board, c: Card, maximum: nat)
    requires maximum > 0
    ensures Admit(b, c, maximum).0.cards == if Admit(b, c, maximum).1.Refused? then b.cards else b.cards + [c]
  {
  }

  lemma {:induction false} OfferedAsStamped(offers: seq<Card>, maximum: nat)
    requires maximum > 0
    ensures Ranks(AdmitAll(offers, maximum).offered) == Ranks(offers)
  {
    hide Offer;
    if offers != [] {
      var n := |offers| - 1;
      var s := AdmitAll(offers[..n], maximum);
      OfferedAsStamped(offers[..n], maximum);
      RanksSnoc(s.offered, Stamped(s.board, offers[n]));
      RanksSnoc(offers[..n], offers[n]);
      assert offers[..n] + [offers[n]] == offers;
    }
  }

  lemma {:induction false} DrawnGrows(cards: seq<Card>, c: Card, offers: seq<Card>)
    requires offers != [] && DrawnFrom(cards, offers[..|offers| - 1]) && c.id == offers[|offers| - 1].id
    ensures DrawnFrom(cards, offers) && DrawnFrom(cards + [c], offers)
  {
  }

  lemma {:induction false} OfferKeepsTheBest(s: Season, c: Card, maximum: nat, all: seq<Rank>)
    requires Tidy(s.board) && maximum > 0 && Ordered(all, Stronger)
    requires Ranks(s.board.active) == all[..Min(maximum, |all|)]
    ensures Ranks(Offer(s, c, maximum).board.active) == Insert(all, RankOf(c), Stronger)[..Min(maximum, |all| + 1)]
  {
    assert RankOf(Stamped(s.board, c)) == RankOf(c);
    AdmitKeepsTheBest(s.board, Stamped(s.board, c), maximum, all);
  }

  lemma {:induction false} SortedRanksGrow(offers: seq<Card>)
    requires offers != []
    ensures var all := Sort(Ranks(offers[..|offers| - 1]), Stronger);
            && Ordered(all, Stronger) && |all| == |offers| - 1
            && Sort(Ranks(offers), Stronger) == Insert(all, RankOf(offers[|offers| - 1]), Stronger)
  {
    hide Insert;
    hide RankOf;
    hide RankLess;
    hide Ordered;
    SortedRanks(Ranks(offers[..|offers| - 1]));
    assert Ranks(offers)[..|offers| - 1] == Ranks(offers[..|offers| - 1]);
  }

  /**
    Streaming top-k. After any admissions of distinct ids the active ranks are, in order, the
    `maximum` highest of all ranks offered.
   */
  lemma {:induction false} TheStrongestAreActive(offers: seq<Card>, maximum: nat)
    requires maximum > 0 && DistinctIds(offers)
    ensures Ranks(AdmitAll(offers, maximum).board.active)
         == Sort(Ranks(offers), Stronger)[..Min(maximum, |offers|)]
  {
    hide Offer;
    hide Insert;
    hide RankOf;
    if offers != [] {
      var n := |offers| - 1;
      TheStrongestAreActive(offers[..n], maximum);
      SeasonTidy(offers[..n], maximum);
      SortedRanksGrow(offers);
      OfferKeepsTheBest(AdmitAll(offers[..n], maximum), offers[n], maximum, Sort(Ranks(offers[..n]), Stronger));
    }
  }

  /** Every candidate is active, in the history or refused; the cards shown are those not refused. */
  ghost predicate Accounted(s: Season) {
    && multiset(s.offered) == multiset(s.board.active) + multiset(s.board.history) + multiset(s.refused)
    && multiset(s.board.cards) == multiset(s.board.active) + multiset(s.board.history)
  }

  lemma {:induction false} OfferAccounts(s: Season, c: Card, maximum: nat)
    requires Tidy(s.board) && maximum > 0 && Accounted(s)
    ensures Accounted(Offer(s, c, maximum))
  {
    hide Tidy;
    hide Admit;
    var candidate := Stamped(s.board, c);
    var t := Offer(s, c, maximum);
    AdmitConserves(s.board, candidate, maximum);
    assert multiset(t.offered) == multiset(s.offered) + multiset{candidate};
    if Admit(s.board, candidate, maximum).1.Refused? {
      assert multiset(t.refused) == multiset(s.refused) + multiset{candidate};
    } else {
      assert multiset(t.board.cards) == multiset(s.board.cards) + multiset{candidate};
    }
  }

  /**
    A card that left or was turned away is no stronger than any card still active; none leaves before the list is
    full.
   */
  ghost predicate Outranked(s: Season, maximum: nat) {
    && (|s.board.active| < maximum ==> s.board.history == [] && s.refused == [])
    && (forall d, a :: d in s.board.history + s.refused && a in s.board.active ==> !StrongerCard(d, a))
  }

  lemma {:induction false} NoStronger(d: Card, w: Card, a: Card)
    requires !StrongerCard(d, w) && !StrongerCard(w, a)
    ensures !StrongerCard(d, a)
  {
    StrongerCardIsStrictWeak();
  }

  lemma {:induction false} WeakestIsNoStronger(cards: seq<Card>, a: Card)
    requires cards != [] && a in cards
    ensures !StrongerCard(cards[Weakest(cards)], a)
  {
    StrongerCardIsStrictWeak();
    var i :| 0 <= i < |cards| && cards[i] == a;
    FirstLeastIsLeast(cards, StrongerCard, i);
  }

  lemma {:induction false} Irreflexive(c: Card, d: Card)
    requires StrongerCard(c, d)
    ensures !StrongerCard(d, c)
  {
    RankLessIsTotal(RankOf(c), RankOf(d));
  }

  lemma {:induction false} OfferOutranks(s: Season, c: Card, maximum: nat)
    requires Tidy(s.board) && maximum > 0 && Outranked(s, maximum) && |s.board.active| <= maximum
    ensures Outranked(Offer(s, c, maximum), maximum)
    ensures |s.board.active| <= |Offer(s, c, maximum).board.active| <= maximum
  {
    hide StrongerCard;
    hide Ordered;
    var candidate, t := Stamped(s.board, c), Offer(s, c, maximum);
    if |s.board.active| == maximum {
      var weakest := s.board.active[Weakest(s.board.active)];
      forall d, a | d in t.board.history + t.refused && a in t.board.active ensures !StrongerCard(d, a) {
        if a in s.board.active {
          WeakestIsNoStronger(s.board.active, a);
          if d !in s.board.history + s.refused && d != weakest {
            assert Admit(s.board, candidate, maximum).1.Refused? && d == candidate;
            NoStronger(d, weakest, a);
          }
        } else {
          NewcomerOutranks(s, candidate, maximum, d, a);
        }
      }
      WithoutOne(s.board.active, Weakest(s.board.active));
    }
  }

  /** A card active only now is the candidate, which displaced the weakest. */
  lemma {:induction false} NewcomerIsCandidate(b: Board, candidate: Card, maximum: nat, a: Card)
    requires 0 < maximum <= |b.active| && a in Admit(b, candidate, maximum).0.active && a !in b.active
    ensures var weakest := b.active[Weakest(b.active)];
      && a == candidate && StrongerCard(candidate, weakest)
      && Admit(b, candidate, maximum).1.Admitted?
      && Admit(b, candidate, maximum).0.history == b.history + [weakest]
  {
    hide StrongerCard;
    hide Sort;
    hide Without;
    var weakest := b.active[Weakest(b.active)];
    var left := Without(b.active, weakest.id.text);
    SortHolds(left + [candidate], a);
    WithoutHolds(b.active, weakest.id.text, a);
  }

  lemma {:induction false} NewcomerOutranks(s: Season, candidate: Card, maximum: nat, d: Card, a: Card)
    requires maximum > 0 && Outranked(s, maximum) && |s.board.active| == maximum
    requires var (b, verdict) := Admit(s.board, candidate, maximum);
      && a in b.active && a !in s.board.active
      && d in b.history + (if verdict.Refused? then s.refused + [candidate] else s.refused)
    ensures !StrongerCard(d, a)
  {
    hide StrongerCard;
    hide Admit;
    var weakest := s.board.active[Weakest(s.board.active)];
    NewcomerIsCandidate(s.board, candidate, maximum, a);
    Irreflexive(candidate, weakest);
    if d in s.board.history + s.refused {
      assert !StrongerCard(d, weakest);
      NoStronger(d, weakest, candidate);
    }
  }

  lemma {:induction false} SeasonOutranks(offers: seq<Card>, maximum: nat)
    requires maximum > 0 && DistinctIds(offers)
    ensures Outranked(AdmitAll(offers, maximum), maximum) && |AdmitAll(offers, maximum).board.active| <= maximum
  {
    hide Offer;
    if offers != [] {
      var n := |offers| - 1;
      assert DistinctIds(offers[..n]);
      SeasonOutranks(offers[..n], maximum);
      SeasonTidy(offers[..n], maximum);
      OfferOutranks(AdmitAll(offers[..n], maximum), offers[n], maximum);
    }
  }

  /**
    Nothing offered is lost: every candidate is active, was displaced into the history, or was refused; the
    cards shown are those that were not refused; and a card that is not active is no stronger than any that is.
   */
  lemma {:induction false} EveryOfferIsAccountedFor(offers: seq<Card>, maximum: nat)
    requires maximum > 0 && DistinctIds(offers)
    ensures Accounted(AdmitAll(offers, maximum)) && Outranked(AdmitAll(offers, maximum), maximum)
    ensures Ranks(AdmitAll(offers, maximum).offered) == Ranks(offers)
  {
    hide Offer;
    OfferedAsStamped(offers, maximum);
    SeasonOutranks(offers, maximum);
    if offers != [] {
      var n := |offers| - 1;
      assert DistinctIds(offers[..n]);
      EveryOfferIsAccountedFor(offers[..n], maximum);
      SeasonTidy(offers[..n], maximum);
      OfferAccounts(AdmitAll(offers[..n], maximum), offers[n], maximum);
    }
  }

  lemma {:induction false} WithoutAll(cards: seq<Card>, id: Text)
    requires forall c :: c in cards ==> c.id.text == id
    ensures Without(cards, id) == []
  {
    if cards != [] {
      WithoutAll(cards[..|cards| - 1], id);
    }
  }

  lemma {:induction false} WithoutTwo(cards: seq<Card>, i: nat, j: nat)
    requires i < j < |cards| && cards[i].id.text == cards[j].id.text
    ensures |Without(cards, cards[i].id.text)| < |cards| - 1
  {
    var last := |cards| - 1;
    if j < last {
      WithoutTwo(cards[..last], i, j);
    } else {
      assert cards[..last][i] == cards[i];
      WithoutShrinks(cards[..last], cards[i]);
    }
  }

  /** Taking one id off a list shortens it by one exactly when no other card carries that id. */
  lemma {:induction false} WithoutOnlyOne(cards: seq<Card>, w: nat)
    requires w < |cards|
    ensures |Without(cards, cards[w].id.text)| == |cards| - 1 <==> OnlyOne(cards, w)
  {
    if OnlyOne(cards, w) {
      WithoutOne(cards, w);
    } else {
      var i :| 0 <= i < |cards| && i != w && cards[i].id.text == cards[w].id.text;
      WithoutTwo(cards, if i < w then i else w, if i < w then w else i);
    }
  }

  /**
    Evicting goes by id. A full list stays full when a stronger card comes exactly when no other active
    card carries the weakest one's id.
   */
  lemma {:induction false} EvictionKeepsTheLengthIff(b: Board, c: Card, maximum: nat)
    requires maximum > 0 && |b.active| == maximum && StrongerCard(c, b.active[Weakest(b.active)])
    ensures |Admit(b, c, maximum).0.active| == maximum
      <==> OnlyOne(b.active, Weakest(b.active))
  {
    hide StrongerCard;
    WithoutOnlyOne(b.active, Weakest(b.active));
  }

  /** So two admissions under one id and a third, stronger card leave a list of two with one card. */
  lemma {:induction false} RepeatedIdShortensTheBoard(x: Card, y: Card, c: Card)
    requires x.id.text == y.id.text && StrongerCard(c, x) && StrongerCard(c, y)
    ensures AdmitAll([x, y, c], 2).board.active == [c.(displayOrder := 2)]
  {
    hide RankLess;
    hide RankOf;
    hide Sort;
    hide Admit;
    var one, two := AdmitAll([x], 2), AdmitAll([x, y], 2);
    var first, second := x.(displayOrder := 0), y.(displayOrder := 1);
    assert [x][..0] == [] && [x, y][..1] == [x] && [x, y, c][..2] == [x, y];
    assert one == Offer(AdmitAll([], 2), x, 2) && two == Offer(one, y, 2);
    AdmitsIntoRoom(EMPTY, first, 2);
    AdmitsIntoRoom(one.board, second, 2);
    forall d | d in two.board.active ensures d.id.text == x.id.text && StrongerCard(c.(displayOrder := 2), d) {
      SortHolds(one.board.active + [second], d);
      SortHolds([] + [first], d);
      SameRank(c, c.(displayOrder := 2), if d == first then x else y, d);
    }
    EvictsAll(two.board, c.(displayOrder := 2), x.id.text);
    assert AdmitAll([x, y, c], 2) == Offer(two, c, 2);
  }

  lemma {:induction false} AdmitsIntoRoom(b: Board, c: Card, maximum: nat)
    requires |b.active| < maximum
    ensures var after := Admit(b, c, maximum).0;
      after.active == Sort(b.active + [c], StrongerCard) && after.cards == b.cards + [c]
        && |after.active| == |b.active| + 1
  {
  }

  lemma {:induction false} SameRank(c: Card, c': Card, d: Card, d': Card)
    requires c' == c.(displayOrder := c'.displayOrder) && d' == d.(displayOrder := d'.displayOrder)
    ensures StrongerCard(c', d') == StrongerCard(c, d)
  {
    assert RankOf(c') == RankOf(c) && RankOf(d') == RankOf(d);
  }

  /** When every active card of a full list carries one id, a stronger card takes the place of them all. */
  lemma {:induction false} EvictsAll(b: Board, c: Card, id: Text)
    requires b.active != [] && forall d :: d in b.active ==> d.id.text == id && StrongerCard(c, d)
    ensures Admit(b, c, |b.active|).0.active == [c]
  {
    hide RankOf;
    hide RankLess;
    WithoutAll(b.active, id);
    assert [] + [c] == [c] && [c][..0] == [];
  }
}
