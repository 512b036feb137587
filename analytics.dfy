/**
 * The analytics page's figures (frontend/src/pages/Analytics.tsx): order
 * count, revenue and average order value, a per-item tally of units sold and
 * revenue gathered by two nested loops into a record keyed by item id, the
 * five best sellers, and the number of available items. The orders and the
 * menu are inputs.
 */
module Analytics {
  import opened Wrappers
  import opened MenuTypes
  import Seqs

  function OrderTotal(o: Order): real {
    o.total
  }

  /** `reduce((sum, order) => sum + order.total, 0)`. */
  function TotalRevenue(orders: seq<Order>): (r: real)
    ensures orders == [] ==> r == 0.0
    ensures |orders| == 1 ==> r == orders[0].total
  {
    SumOfOne(orders);
    Seqs.Sum(orders, OrderTotal)
  }

  /** The sum over a single order is that order's total. */
  lemma SumOfOne(orders: seq<Order>)
    ensures |orders| == 1 ==> Seqs.Sum(orders, OrderTotal) == orders[0].total
  {
    if |orders| == 1 {
      assert Seqs.Sum(orders[1..], OrderTotal) == 0.0;
      assert OrderTotal(orders[0]) == orders[0].total;
    }
  }

  /** `totalRevenue / totalOrders`; `None` is the NaN of an empty order list. */
  function AvgOrderValue(orders: seq<Order>): (r: Option<real>)
    ensures r.None? <==> orders == []
    ensures r.Some? ==> r.value * |orders| as real == TotalRevenue(orders)
  {
    if orders == [] then None else Some(TotalRevenue(orders) / |orders| as real)
  }

  lemma ScaleSucc(c: real, m: nat)
    ensures c * (m + 1) as real == c * m as real + c
  {
  }

  /** The first order's total plus the revenue of the rest. */
  lemma RevenueCons(orders: seq<Order>)
    requires orders != []
    ensures TotalRevenue(orders) == orders[0].total + TotalRevenue(orders[1..])
  {
  }

  /** Every order's total is at least `lo`, so the revenue is at least `lo` per order. */
  lemma {:induction false} RevenueAtLeast(orders: seq<Order>, lo: real)
    requires forall o :: o in orders ==> lo <= o.total
    ensures lo * |orders| as real <= TotalRevenue(orders)
  {
    if orders != [] {
      var rest := orders[1..];
      assert forall o :: o in rest ==> o in orders;
      RevenueAtLeast(rest, lo);
      assert orders[0] in orders;
      ScaleSucc(lo, |rest|);
      RevenueCons(orders);
    }
  }

  /** Every order's total is at most `hi`, so the revenue is at most `hi` per order. */
  lemma {:induction false} RevenueAtMost(orders: seq<Order>, hi: real)
    requires forall o :: o in orders ==> o.total <= hi
    ensures TotalRevenue(orders) <= hi * |orders| as real
  {
    if orders != [] {
      var rest := orders[1..];
      assert forall o :: o in rest ==> o in orders;
      RevenueAtMost(rest, hi);
      assert orders[0] in orders;
      ScaleSucc(hi, |rest|);
      RevenueCons(orders);
    }
  }

  lemma RevenueBounds(orders: seq<Order>, lo: real, hi: real)
    requires forall o :: o in orders ==> lo <= o.total <= hi
    ensures lo * |orders| as real <= TotalRevenue(orders) <= hi * |orders| as real
  {
    RevenueAtLeast(orders, lo);
    RevenueAtMost(orders, hi);
  }

  /** The average lies between the smallest and the largest order total. */
  lemma AvgWithinTotals(orders: seq<Order>, lo: real, hi: real)
    requires orders != []
    requires forall o :: o in orders ==> lo <= o.total <= hi
    ensures lo <= AvgOrderValue(orders).value <= hi
  {
    RevenueBounds(orders, lo, hi);
    var n := |orders| as real;
    var avg := AvgOrderValue(orders).value;
    assert avg * n == TotalRevenue(orders);
    assert lo * n <= avg * n <= hi * n;
  }

  /** One record value: the item's name, the units sold and the revenue at the item's base price. */
  datatype ItemStat = ItemStat(name: string, count: int, revenue: real)

  /** `itemCounts` and the order in which its keys were first written. */
  datatype Counts = Counts(stats: map<string, ItemStat>, keys: seq<string>)

  /** Every line of every order, in order. */
  function AllLines(orders: seq<Order>): seq<CartItem>
  {
    if orders == [] then [] else AllLines(orders[..|orders| - 1]) + orders[|orders| - 1].items
  }

  function LineRevenue(line: CartItem): real {
    line.menuItem.price * line.quantity as real
  }

  /** The effect of one inner-loop iteration: create the record on first sight, then add the line's units and revenue. */
  function Step(c: Counts, line: CartItem): (r: Counts)
    ensures line.menuItem.id in r.stats
    ensures r.stats[line.menuItem.id].count
         == (if line.menuItem.id in c.stats then c.stats[line.menuItem.id].count else 0) + line.quantity
    ensures forall id :: id in c.stats && id != line.menuItem.id ==> id in r.stats && r.stats[id] == c.stats[id]
  {
    var id := line.menuItem.id;
    if id in c.stats then
      Counts(c.stats[id := c.stats[id].(count := c.stats[id].count + line.quantity,
                                         revenue := c.stats[id].revenue + LineRevenue(line))], c.keys)
    else
      Counts(c.stats[id := ItemStat(line.menuItem.name, line.quantity, LineRevenue(line))], c.keys + [id])
  }

  /** The record after the loops have visited `lines`. */
  function Tally(lines: seq<CartItem>): (r: Counts)
    ensures |r.keys| <= |lines|
  {
    if lines == [] then Counts(map[], []) else Step(Tally(lines[..|lines| - 1]), lines[|lines| - 1])
  }

  predicate Mentions(lines: seq<CartItem>, id: string) {
    exists k :: 0 <= k < |lines| && lines[k].menuItem.id == id
  }

  /** The units of the item sold over `lines`. */
  function QuantityOf(lines: seq<CartItem>, id: string): int {
    if lines == [] then 0
    else QuantityOf(lines[..|lines| - 1], id) + (if lines[|lines| - 1].menuItem.id == id then lines[|lines| - 1].quantity else 0)
  }

  /** The item's revenue over `lines`, at its base price. */
  function RevenueOf(lines: seq<CartItem>, id: string): real {
    if lines == [] then 0.0
    else RevenueOf(lines[..|lines| - 1], id) + (if lines[|lines| - 1].menuItem.id == id then LineRevenue(lines[|lines| - 1]) else 0.0)
  }

  /** The name recorded for `id` is that of its first line. */
  predicate NamedByFirstLine(lines: seq<CartItem>, id: string, name: string) {
    exists k :: 0 <= k < |lines| && lines[k].menuItem.id == id && lines[k].menuItem.name == name
      && forall j :: 0 <= j < k ==> lines[j].menuItem.id != id
  }

  predicate Distinct(keys: seq<string>) {
    forall i, j :: 0 <= i < j < |keys| ==> keys[i] != keys[j]
  }

  /** The record has an entry for exactly the items sold. */
  ghost predicate DomainIs(lines: seq<CartItem>, c: Counts) {
    forall id :: id in c.stats <==> Mentions(lines, id)
  }

  /** Each entry holds the item's units and revenue over all the lines. */
  ghost predicate TotalsAre(lines: seq<CartItem>, c: Counts) {
    forall id :: id in c.stats ==> c.stats[id].count == QuantityOf(lines, id) && c.stats[id].revenue == RevenueOf(lines, id)
  }

  /** Each entry is named after the first line of its item. */
  ghost predicate NamesAre(lines: seq<CartItem>, c: Counts) {
    forall id :: id in c.stats ==> NamedByFirstLine(lines, id, c.stats[id].name)
  }

  /** The keys are listed once each, and they are the record's keys. */
  ghost predicate KeysAre(c: Counts) {
    Distinct(c.keys) && forall id :: id in c.stats <==> id in c.keys
  }

  /** What the record holds, stated per item. */
  ghost predicate TallyMeans(lines: seq<CartItem>, c: Counts) {
    DomainIs(lines, c) && TotalsAre(lines, c) && NamesAre(lines, c) && KeysAre(c)
  }

  lemma StepDomain(init: seq<CartItem>, line: CartItem, c0: Counts)
    requires DomainIs(init, c0)
    ensures DomainIs(init + [line], Step(c0, line))
  {
    var lines := init + [line];
    var c := Step(c0, line);
    forall id ensures id in c.stats <==> Mentions(lines, id) {
      if Mentions(init, id) {
        var k :| 0 <= k < |init| && init[k].menuItem.id == id;
        assert lines[k] == init[k];
      }
      if Mentions(lines, id) && id != line.menuItem.id {
        var k :| 0 <= k < |lines| && lines[k].menuItem.id == id;
        assert k < |init| && init[k] == lines[k];
      }
      if id == line.menuItem.id {
        assert lines[|init|] == line;
      }
    }
  }

  lemma StepTotals(init: seq<CartItem>, line: CartItem, c0: Counts)
    requires DomainIs(init, c0) && TotalsAre(init, c0)
    ensures TotalsAre(init + [line], Step(c0, line))
  {
    var lines := init + [line];
    assert lines[..|lines| - 1] == init;
    var c := Step(c0, line);
    forall id | id in c.stats
      ensures c.stats[id].count == QuantityOf(lines, id) && c.stats[id].revenue == RevenueOf(lines, id)
    {
      if id !in c0.stats {
        assert !Mentions(init, id);
        NotMentioned(init, id);
      }
    }
  }

  /** An item no line mentions has sold nothing. */
  lemma {:induction false} NotMentioned(lines: seq<CartItem>, id: string)
    requires !Mentions(lines, id)
    ensures QuantityOf(lines, id) == 0 && RevenueOf(lines, id) == 0.0
  {
    if lines != [] {
      var init := lines[..|lines| - 1];
      forall k | 0 <= k < |init| ensures init[k].menuItem.id != id {
        assert lines[k] == init[k];
      }
      NotMentioned(init, id);
    }
  }

  lemma StepNames(init: seq<CartItem>, line: CartItem, c0: Counts)
    requires DomainIs(init, c0) && NamesAre(init, c0)
    ensures NamesAre(init + [line], Step(c0, line))
  {
    var lines := init + [line];
    var c := Step(c0, line);
    forall id | id in c.stats ensures NamedByFirstLine(lines, id, c.stats[id].name) {
      if id in c0.stats {
        var k :| 0 <= k < |init| && init[k].menuItem.id == id && init[k].menuItem.name == c0.stats[id].name
          && forall j :: 0 <= j < k ==> init[j].menuItem.id != id;
        assert forall j :: 0 <= j < k ==> lines[j] == init[j];
        assert lines[k] == init[k];
      } else {
        forall j | 0 <= j < |init| ensures lines[j].menuItem.id != id {
          assert lines[j] == init[j];
        }
        assert lines[|init|] == line;
      }
    }
  }

  lemma StepKeys(c0: Counts, line: CartItem)
    requires KeysAre(c0)
    ensures KeysAre(Step(c0, line))
  {
  }

  lemma {:induction false} TallyCorrect(lines: seq<CartItem>)
    ensures TallyMeans(lines, Tally(lines))
  {
    if lines != [] {
      var init := lines[..|lines| - 1];
      var line := lines[|lines| - 1];
      TallyCorrect(init);
      assert lines == init + [line];
      StepDomain(init, line, Tally(init));
      StepTotals(init, line, Tally(init));
      StepNames(init, line, Tally(init));
      StepKeys(Tally(init), line);
    }
  }

  /** Visiting one more line is one more step. */
  lemma TallySnoc(done: seq<CartItem>, line: CartItem)
    ensures Tally(done + [line]) == Step(Tally(done), line)
  {
    var l := done + [line];
    assert l[..|l| - 1] == done;
  }

  /** One more line of the current order is one more step. */
  lemma TallyPrefixStep(done: seq<CartItem>, items: seq<CartItem>, j: nat)
    requires j < |items|
    ensures Tally(done + items[..j + 1]) == Step(Tally(done + items[..j]), items[j])
  {
    TallySnoc(done + items[..j], items[j]);
    assert (done + items[..j]) + [items[j]] == done + items[..j + 1];
  }

  /** The lines of one more order follow the lines of the earlier ones. */
  lemma AllLinesStep(orders: seq<Order>, i: nat)
    requires i < |orders|
    ensures AllLines(orders[..i + 1]) == AllLines(orders[..i]) + orders[i].items
  {
    assert orders[..i + 1][..i] == orders[..i];
  }

  /** The inner `forEach`: one order's lines, added to the record built so far. */
  method TallyOrder(c0: Counts, done: seq<CartItem>, items: seq<CartItem>) returns (c: Counts)
    requires c0 == Tally(done)
    ensures c == Tally(done + items)
  {
    c := c0;
    var j := 0;
    assert done + items[..0] == done;
    while j < |items|
      invariant 0 <= j <= |items|
      invariant c == Tally(done + items[..j])
    {
      TallyPrefixStep(done, items, j);
      c := Step(c, items[j]);
      j := j + 1;
    }
    assert items[..j] == items;
  }

  /**
   * The nested `forEach` loops: the outer over orders, the inner over each
   * order's lines, updating the record in place.
   */
  method AggregateItemCounts(orders: seq<Order>) returns (c: Counts)
    ensures c == Tally(AllLines(orders))
    ensures TallyMeans(AllLines(orders), c)
  {
    c := Counts(map[], []);
    var i := 0;
    while i < |orders|
      invariant 0 <= i <= |orders|
      invariant c == Tally(AllLines(orders[..i]))
    {
      c := TallyOrder(c, AllLines(orders[..i]), orders[i].items);
      AllLinesStep(orders, i);
      i := i + 1;
    }
    assert orders[..i] == orders;
    TallyCorrect(AllLines(orders));
  }

  /** `Object.values(itemCounts)`, in key insertion order. */
  function Values(c: Counts): (r: seq<ItemStat>)
    requires forall id :: id in c.keys ==> id in c.stats
    ensures |r| == |c.keys|
    ensures forall i :: 0 <= i < |r| ==> r[i] == c.stats[c.keys[i]]
    decreases |c.keys|
  {
    if c.keys == [] then [] else [c.stats[c.keys[0]]] + Values(Counts(c.stats, c.keys[1..]))
  }

  predicate NonIncreasing(s: seq<ItemStat>) {
    forall i, j :: 0 <= i < j < |s| ==> s[i].count >= s[j].count
  }

  /** Place `x` after every entry whose count is at least its own. */
  function Insert(x: ItemStat, s: seq<ItemStat>): (r: seq<ItemStat>)
    ensures |r| == |s| + 1
    ensures multiset(r) == multiset(s) + multiset{x}
  {
    if s == [] then [x]
    else if s[0].count < x.count then [x] + s
    else
      assert s == [s[0]] + s[1..];
      [s[0]] + Insert(x, s[1..])
  }

  /** `sort((a, b) => b.count - a.count)`: a stable sort, most units first. */
  function SortByCount(s: seq<ItemStat>): (r: seq<ItemStat>)
    ensures |r| == |s|
    ensures multiset(r) == multiset(s)
  {
    if s == [] then []
    else
      assert s == s[..|s| - 1] + [s[|s| - 1]];
      Insert(s[|s| - 1], SortByCount(s[..|s| - 1]))
  }

  /** Every entry of `s` has a count of at most `b`. */
  predicate AtMost(s: seq<ItemStat>, b: int) {
    forall k :: 0 <= k < |s| ==> s[k].count <= b
  }

  /** A sorted sequence is bounded by its first count, and its tail is sorted. */
  lemma SortedHead(s: seq<ItemStat>)
    requires NonIncreasing(s) && s != []
    ensures AtMost(s, s[0].count) && NonIncreasing(s[1..])
  {
    forall i, j | 0 <= i < j < |s[1..]| ensures s[1..][i].count >= s[1..][j].count {
      assert s[1..][i] == s[i + 1] && s[1..][j] == s[j + 1];
    }
  }

  /** Putting an entry with the largest count in front of a sorted sequence keeps it sorted. */
  lemma ConsSorted(a: ItemStat, t: seq<ItemStat>)
    requires NonIncreasing(t) && AtMost(t, a.count)
    ensures NonIncreasing([a] + t)
  {
    var r := [a] + t;
    forall i, j | 0 <= i < j < |r| ensures r[i].count >= r[j].count {
      assert r[j] == t[j - 1];
      if i > 0 {
        assert r[i] == t[i - 1];
      }
    }
  }

  /** Inserting an entry under a common bound keeps the bound. */
  lemma {:induction false} InsertBounded(x: ItemStat, s: seq<ItemStat>, b: int)
    requires AtMost(s, b) && x.count <= b
    ensures AtMost(Insert(x, s), b)
  {
    if s == [] {
    } else if s[0].count < x.count {
      var r := [x] + s;
      assert forall k :: 1 <= k < |r| ==> r[k] == s[k - 1];
    } else {
      assert AtMost(s[1..], b) by {
        assert forall k :: 0 <= k < |s[1..]| ==> s[1..][k] == s[k + 1];
      }
      InsertBounded(x, s[1..], b);
      var r := [s[0]] + Insert(x, s[1..]);
      assert forall k :: 1 <= k < |r| ==> r[k] == Insert(x, s[1..])[k - 1];
    }
  }

  lemma {:induction false} InsertSorted(x: ItemStat, s: seq<ItemStat>)
    requires NonIncreasing(s)
    ensures NonIncreasing(Insert(x, s))
  {
    if s == [] {
    } else if s[0].count < x.count {
      SortedHead(s);
      ConsSorted(x, s);
    } else {
      SortedHead(s);
      InsertSorted(x, s[1..]);
      InsertBounded(x, s[1..], s[0].count);
      ConsSorted(s[0], Insert(x, s[1..]));
    }
  }

  lemma {:induction false} SortedByCount(s: seq<ItemStat>)
    ensures NonIncreasing(SortByCount(s))
  {
    if s != [] {
      SortedByCount(s[..|s| - 1]);
      InsertSorted(s[|s| - 1], SortByCount(s[..|s| - 1]));
    }
  }

  function WithCount(n: int): ItemStat -> bool {
    (x: ItemStat) => x.count == n
  }

  /** Below a head whose count is less than `n`, no entry of a sorted sequence has count `n`. */
  lemma NoneWithCount(s: seq<ItemStat>, n: int)
    requires NonIncreasing(s) && s != [] && s[0].count < n
    ensures Seqs.Filter(s, WithCount(n)) == []
  {
    SortedHead(s);
    forall y | y in s ensures !WithCount(n)(y) {
      var k :| 0 <= k < |s| && s[k] == y;
      assert s[k].count <= s[0].count;
    }
    Seqs.FilterNone(s, WithCount(n));
  }

  lemma {:induction false} InsertKeepsTies(x: ItemStat, s: seq<ItemStat>, n: int)
    requires NonIncreasing(s)
    ensures Seqs.Filter(Insert(x, s), WithCount(n)) == Seqs.Filter(s, WithCount(n)) + (if x.count == n then [x] else [])
  {
    var p := WithCount(n);
    if s == [] {
      Seqs.FilterCons(x, [], p);
    } else if s[0].count < x.count {
      InsertFrontKeepsTies(x, s, n);
    } else {
      SortedHead(s);
      InsertKeepsTies(x, s[1..], n);
      assert s == [s[0]] + s[1..];
      assert Insert(x, s) == [s[0]] + Insert(x, s[1..]);
      Seqs.FilterConsTail(s[0], Insert(x, s[1..]), s[1..], if x.count == n then [x] else [], p);
    }
  }

  /** An entry inserted in front is the last one with its count. */
  lemma InsertFrontKeepsTies(x: ItemStat, s: seq<ItemStat>, n: int)
    requires NonIncreasing(s) && s != [] && s[0].count < x.count
    ensures Seqs.Filter([x] + s, WithCount(n)) == Seqs.Filter(s, WithCount(n)) + (if x.count == n then [x] else [])
  {
    Seqs.FilterCons(x, s, WithCount(n));
    if x.count == n {
      NoneWithCount(s, n);
    }
  }

  /** If the entries sorted so far keep the order of ties, inserting the next one still does. */
  lemma InsertStepKeepsTies(x: ItemStat, sorted: seq<ItemStat>, s: seq<ItemStat>, n: int)
    requires s != [] && x == s[|s| - 1]
    requires NonIncreasing(sorted)
    requires Seqs.Filter(sorted, WithCount(n)) == Seqs.Filter(s[..|s| - 1], WithCount(n))
    ensures Seqs.Filter(Insert(x, sorted), WithCount(n)) == Seqs.Filter(s, WithCount(n))
  {
    InsertKeepsTies(x, sorted, n);
    assert s == s[..|s| - 1] + [x];
    Seqs.FilterSnoc(s[..|s| - 1], x, WithCount(n));
  }

  /** Among items with the same count, the sort keeps the record's order. */
  lemma {:induction false} SortKeepsTies(s: seq<ItemStat>, n: int)
    ensures Seqs.Filter(SortByCount(s), WithCount(n)) == Seqs.Filter(s, WithCount(n))
  {
    if s != [] {
      var init := s[..|s| - 1];
      var x := s[|s| - 1];
      assert SortByCount(s) == Insert(x, SortByCount(init));
      SortKeepsTies(init, n);
      SortedByCount(init);
      InsertStepKeepsTies(x, SortByCount(init), s, n);
    }
  }

  /** `.slice(0, 5)` of the sorted values. */
  function TopItems(c: Counts): (r: seq<ItemStat>)
    requires forall id :: id in c.keys ==> id in c.stats
    ensures |r| == if |c.keys| < 5 then |c.keys| else 5
    ensures multiset(r) <= multiset(Values(c))
  {
    var sorted := SortByCount(Values(c));
    var k := Seqs.TakeLength(sorted, 5);
    assert sorted == sorted[..k] + sorted[k..];
    sorted[..k]
  }

  /** In a sequence sorted by count, every entry before position `k` has at least the count of every entry from `k` on. */
  lemma PrefixBeatsSuffix(sorted: seq<ItemStat>, k: nat)
    requires NonIncreasing(sorted) && k <= |sorted|
    ensures forall x, y :: x in sorted[..k] && y in sorted[k..] ==> x.count >= y.count
  {
    forall x, y | x in sorted[..k] && y in sorted[k..] ensures x.count >= y.count {
      var a :| 0 <= a < k && sorted[..k][a] == x;
      var b :| 0 <= b < |sorted| - k && sorted[k..][b] == y;
      assert sorted[a] == x && sorted[k + b] == y;
    }
  }

  /** What a prefix leaves of a sequence's multiset is the multiset of the rest. */
  lemma PrefixRest(sorted: seq<ItemStat>, k: nat)
    requires k <= |sorted|
    ensures multiset(sorted) - multiset(sorted[..k]) == multiset(sorted[k..])
  {
    assert sorted == sorted[..k] + sorted[k..];
    assert multiset(sorted) == multiset(sorted[..k]) + multiset(sorted[k..]);
  }

  /** A prefix of a sorted sequence is sorted. */
  lemma PrefixSorted(sorted: seq<ItemStat>, k: nat)
    requires NonIncreasing(sorted) && k <= |sorted|
    ensures NonIncreasing(sorted[..k])
  {
    forall i, j | 0 <= i < j < k ensures sorted[..k][i].count >= sorted[..k][j].count {
      assert sorted[..k][i] == sorted[i] && sorted[..k][j] == sorted[j];
    }
  }

  /** A prefix of a sequence sorted by count holds the largest counts. */
  lemma PrefixHoldsLargest(sorted: seq<ItemStat>, k: nat)
    requires NonIncreasing(sorted) && k <= |sorted|
    ensures NonIncreasing(sorted[..k])
    ensures forall x, y :: x in sorted[..k] && y in multiset(sorted) - multiset(sorted[..k]) ==> x.count >= y.count
  {
    PrefixSorted(sorted, k);
    PrefixBeatsSuffix(sorted, k);
    PrefixRest(sorted, k);
  }

  /** No item left off the list outsold one on it. */
  lemma TopItemsAreBest(c: Counts)
    requires forall id :: id in c.keys ==> id in c.stats
    ensures NonIncreasing(TopItems(c))
    ensures forall x, y :: x in TopItems(c) && y in multiset(Values(c)) - multiset(TopItems(c)) ==> x.count >= y.count
  {
    var sorted := SortByCount(Values(c));
    SortedByCount(Values(c));
    var top := TopItems(c);
    var k := Seqs.TakeLength(sorted, 5);
    assert top == sorted[..k];
    PrefixHoldsLargest(sorted, k);
  }

  predicate IsAvailable(m: MenuItem) {
    m.isAvailable
  }

  predicate IsUnavailable(m: MenuItem) {
    !m.isAvailable
  }

  /** `menuItems.filter(i => i.isAvailable).length`. */
  function AvailableCount(items: seq<MenuItem>): (n: nat)
    ensures n <= |items|
    ensures n == 0 <==> forall m :: m in items ==> !m.isAvailable
  {
    var available := Seqs.Filter(items, IsAvailable);
    assert available != [] ==> available[0] in available;
    |available|
  }

  /** Available and unavailable items together make up the menu. */
  lemma AvailablePlusUnavailable(items: seq<MenuItem>)
    ensures AvailableCount(items) + |Seqs.Filter(items, IsUnavailable)| == |items|
    ensures AvailableCount(items) == |items| <==> forall m :: m in items ==> m.isAvailable
  {
    Seqs.FilterSplit(items, IsAvailable, IsUnavailable);
    if AvailableCount(items) == |items| {
      assert Seqs.Filter(items, IsUnavailable) == [];
      forall m | m in items ensures m.isAvailable {
        assert m !in Seqs.Filter(items, IsUnavailable);
      }
    } else {
      if forall m :: m in items ==> m.isAvailable {
        Seqs.FilterAll(items, IsAvailable);
      }
    }
  }
}
