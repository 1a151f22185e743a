/**
  The profile page of the client (frontend/src/components/MyProfile.jsx):
  profit over the activity log, 5-per-page pagination of the log, the
  per-label BUY/SELL bucketing behind the bar chart, and the add-money form.
  The activity log comes from an endpoint the shown backend does not have,
  so it enters as a parameter; the add-money request goes to the modelled
  `update-balance` route.
 */
module Profile {
  import opened Server

  /** An activity-log entry as the client receives it; `kind` is its `type` field. */
  datatype StockLog = StockLog(symbol: string, quantity: int, totalCost: int, kind: string)

  /** A chart input: the entry's date already formatted as a label, its total and its type. */
  datatype ChartEntry = ChartEntry(dateLabel: string, totalCost: int, kind: string)

  const Buy := "BUY"
  const Sell := "SELL"

  // ---------------------------------------------------------------- profit

  /** Sum of `totalCost` over the entries of one kind. */
  function KindTotal(logs: seq<StockLog>, kind: string): int
  {
    if logs == [] then 0
    else KindTotal(logs[..|logs| - 1], kind)
         + (if logs[|logs| - 1].kind == kind then logs[|logs| - 1].totalCost else 0)
  }

  /** Realised profit: SELL totals minus BUY totals. */
  function Profit(logs: seq<StockLog>): int
  {
    KindTotal(logs, Sell) - KindTotal(logs, Buy)
  }

  lemma {:induction false} KindTotalAppend(a: seq<StockLog>, b: seq<StockLog>, kind: string)
    ensures KindTotal(a + b, kind) == KindTotal(a, kind) + KindTotal(b, kind)
    decreases |b|
  {
    if b == [] {
      assert a + b == a;
    } else {
      var b' := b[..|b| - 1];
      KindTotalAppend(a, b', kind);
      assert (a + b)[..|a + b| - 1] == a + b';
    }
  }

  /** Profit is additive over a split of the log. */
  lemma ProfitAppend(a: seq<StockLog>, b: seq<StockLog>)
    ensures Profit(a + b) == Profit(a) + Profit(b)
  {
    KindTotalAppend(a, b, Sell);
    KindTotalAppend(a, b, Buy);
  }

  /** One entry moves profit by +total (SELL), -total (BUY) or not at all (any other type). */
  lemma ProfitOfEntry(logs: seq<StockLog>, x: StockLog)
    ensures Profit(logs + [x]) ==
      Profit(logs) + (if x.kind == Sell then x.totalCost else if x.kind == Buy then -x.totalCost else 0)
  {
    ProfitAppend(logs, [x]);
    assert [x][..0] == [];
  }

  /** calculateProfit: the forEach accumulation. */
  method CalculateProfit(stockLogs: seq<StockLog>) returns (profit: int)
    ensures profit == Profit(stockLogs)
  {
    profit := 0;
    var i := 0;
    while i < |stockLogs|
      invariant 0 <= i <= |stockLogs|
      invariant profit == Profit(stockLogs[..i])
    {
      var log := stockLogs[i];
      if log.kind == Sell {
        profit := profit + log.totalCost;
      } else if log.kind == Buy {
        profit := profit - log.totalCost;
      }
      ProfitOfEntry(stockLogs[..i], log);
      assert stockLogs[..i + 1] == stockLogs[..i] + [log];
      i := i + 1;
    }
    assert stockLogs[..i] == stockLogs;
  }

  // ------------------------------------------------------------ pagination

  const ItemsPerPage: nat := 5

  /** totalPages: Math.ceil(length / 5). */
  function PageCount(n: nat): (r: nat)
    ensures ItemsPerPage * r >= n
    ensures r > 0 ==> ItemsPerPage * (r - 1) < n
    ensures r == 0 <==> n == 0
  {
    (n + ItemsPerPage - 1) / ItemsPerPage
  }

  function Min(a: int, b: int): int { if a <= b then a else b }

  /** Array.prototype.slice for non-negative bounds: both are clamped to the length. */
  function Slice<T>(s: seq<T>, start: nat, end: nat): seq<T>
  {
    var lo := Min(start, |s|);
    var hi := Min(end, |s|);
    if lo < hi then s[lo..hi] else []
  }

  /** currentTransactions for a page index. */
  function PageSlice(logs: seq<StockLog>, page: nat): seq<StockLog>
  {
    Slice(logs, page * ItemsPerPage, (page + 1) * ItemsPerPage)
  }

  /** A page holds the logs at indices [5p, 5p+5): at most five, and none past the last page. */
  lemma PageSliceContents(logs: seq<StockLog>, page: nat)
    ensures var r := PageSlice(logs, page);
            && |r| == (if page * ItemsPerPage >= |logs| then 0 else Min(ItemsPerPage, |logs| - page * ItemsPerPage))
            && |r| <= ItemsPerPage
            && (forall k :: 0 <= k < |r| ==> r[k] == logs[page * ItemsPerPage + k])
            && (r != [] <==> page < PageCount(|logs|))
  {
  }

  /** Every log appears on page i / 5, at slot i % 5. */
  lemma EveryLogOnItsPage(logs: seq<StockLog>, i: nat)
    requires i < |logs|
    ensures i / ItemsPerPage < PageCount(|logs|)
    ensures PageSlice(logs, i / ItemsPerPage)[i % ItemsPerPage] == logs[i]
  {
    PageSliceContents(logs, i / ItemsPerPage);
  }

  /** handleNextPage's new index. */
  function NextPage(page: int, totalPages: int): int
  {
    if page < totalPages - 1 then page + 1 else page
  }

  /** handlePreviousPage's new index. */
  function PreviousPage(page: int): int
  {
    if page > 0 then page - 1 else page
  }

  /** Navigation never leaves [0, max(totalPages, 1)) once inside it, and never goes below 0. */
  lemma NavigationStaysInRange(page: int, totalPages: int)
    requires 0 <= page
    ensures 0 <= NextPage(page, totalPages) && 0 <= PreviousPage(page)
    ensures page < totalPages ==> NextPage(page, totalPages) < totalPages
    ensures PreviousPage(page) <= page <= NextPage(page, totalPages) <= page + 1
    ensures NextPage(page, totalPages) == page <==> page >= totalPages - 1
    ensures PreviousPage(page) == page <==> page == 0
  {
  }

  // ----------------------------------------------------------------- chart

  predicate IsTrade(kind: string)
  {
    kind == Buy || kind == Sell
  }

  /** The chart labels: each entry's label, first occurrence only. */
  function ChartLabels(data: seq<ChartEntry>): seq<string>
  {
    if data == [] then []
    else
      var labels := ChartLabels(data[..|data| - 1]);
      var l := data[|data| - 1].dateLabel;
      if l in labels then labels else labels + [l]
  }

  /** Some BUY or SELL entry carries the label (so both its slots are set). */
  predicate Touched(data: seq<ChartEntry>, tag: string)
  {
    if data == [] then false
    else Touched(data[..|data| - 1], tag)
         || (data[|data| - 1].dateLabel == tag && IsTrade(data[|data| - 1].kind))
  }

  /** Sum of `totalCost` over the entries with this label and kind. */
  function LabelTotal(data: seq<ChartEntry>, tag: string, kind: string): int
  {
    if data == [] then 0
    else LabelTotal(data[..|data| - 1], tag, kind)
         + (if data[|data| - 1].dateLabel == tag && data[|data| - 1].kind == kind then data[|data| - 1].totalCost else 0)
  }

  predicate Distinct(s: seq<string>)
  {
    forall i, j :: 0 <= i < j < |s| ==> s[i] != s[j]
  }

  /** No label is pushed twice. */
  lemma {:induction false} ChartLabelsDistinct(data: seq<ChartEntry>)
    ensures Distinct(ChartLabels(data))
  {
    if data != [] {
      ChartLabelsDistinct(data[..|data| - 1]);
    }
  }

  /** The labels are exactly the labels of the entries. */
  lemma {:induction false} ChartLabelsMembers(data: seq<ChartEntry>)
    ensures forall t :: t in ChartLabels(data) <==> exists k :: 0 <= k < |data| && data[k].dateLabel == t
  {
    if data != [] {
      var init := data[..|data| - 1];
      ChartLabelsMembers(init);
      forall t
        ensures t in ChartLabels(data) <==> exists k :: 0 <= k < |data| && data[k].dateLabel == t
      {
        if t in ChartLabels(init) {
          var k :| 0 <= k < |init| && init[k].dateLabel == t;
          assert data[k].dateLabel == t;
        }
        if k :| 0 <= k < |data| && data[k].dateLabel == t {
          if k < |init| {
            assert init[k].dateLabel == t;
          }
        }
      }
    }
  }

  /** First-occurrence order: the labels of any prefix of the data are a prefix of the labels. */
  lemma {:induction false} ChartLabelsPrefix(data: seq<ChartEntry>, n: nat)
    requires n <= |data|
    ensures var p := ChartLabels(data[..n]);
            |p| <= |ChartLabels(data)| && ChartLabels(data)[..|p|] == p
    decreases |data| - n
  {
    if n < |data| {
      var init := data[..|data| - 1];
      assert init[..n] == data[..n];
      ChartLabelsPrefix(init, n);
    } else {
      assert data[..n] == data;
    }
  }

  lemma {:induction false} TouchedIsLabel(data: seq<ChartEntry>, tag: string)
    requires Touched(data, tag)
    ensures tag in ChartLabels(data)
  {
    var init := data[..|data| - 1];
    if Touched(init, tag) {
      TouchedIsLabel(init, tag);
    }
  }

  lemma {:induction false} UntouchedIsZero(data: seq<ChartEntry>, tag: string)
    requires !Touched(data, tag)
    ensures LabelTotal(data, tag, Buy) == 0 && LabelTotal(data, tag, Sell) == 0
  {
    if data != [] {
      UntouchedIsZero(data[..|data| - 1], tag);
    }
  }

  /** labels.indexOf(x) for an x that is present. */
  function IndexOf(s: seq<string>, x: string): (r: nat)
    requires x in s
    ensures r < |s| && s[r] == x
    ensures forall k :: 0 <= k < r ==> s[k] != x
  {
    if s[0] == x then 0 else 1 + IndexOf(s[1..], x)
  }

  /** A JS array slot read as `(arr[i] || 0)`. */
  function Slot(m: map<int, int>, i: int): int
  {
    if i in m then m[i] else 0
  }

  /** The chart state after some entries: one slot map holds exactly the touched labels' sums. */
  ghost predicate SlotsMatch(data: seq<ChartEntry>, labels: seq<string>, slots: map<int, int>, kind: string)
  {
    && (forall j :: j in slots <==> 0 <= j < |labels| && Touched(data, labels[j]))
    && (forall j :: j in slots ==> slots[j] == LabelTotal(data, labels[j], kind))
  }

  /** What one more entry does to the specification functions. */
  lemma AppendOne(data: seq<ChartEntry>, e: ChartEntry, t: string, kind: string)
    ensures Touched(data + [e], t) == (Touched(data, t) || (e.dateLabel == t && IsTrade(e.kind)))
    ensures LabelTotal(data + [e], t, kind) ==
            LabelTotal(data, t, kind) + (if e.dateLabel == t && e.kind == kind then e.totalCost else 0)
  {
    assert (data + [e])[..|data|] == data;
  }

  /** The new slot at the entry's own label index. */
  lemma SlotAtEntry(data: seq<ChartEntry>, e: ChartEntry, slots: map<int, int>, idx: int, kind: string, v: int)
    requires IsTrade(kind) && IsTrade(e.kind)
    requires idx in slots ==> slots[idx] == LabelTotal(data, e.dateLabel, kind)
    requires idx !in slots ==> !Touched(data, e.dateLabel)
    requires v == Slot(slots, idx) + (if e.kind == kind then e.totalCost else 0)
    ensures Touched(data + [e], e.dateLabel)
    ensures v == LabelTotal(data + [e], e.dateLabel, kind)
  {
    AppendOne(data, e, e.dateLabel, kind);
    if idx !in slots {
      UntouchedIsZero(data, e.dateLabel);
    }
  }

  /** One iteration of the loop keeps one slot map (BUY's or SELL's) in step with the entries. */
  lemma {:induction false} SlotStep(data: seq<ChartEntry>, e: ChartEntry, labels': seq<string>, idx: nat,
                                    slots: map<int, int>, slots': map<int, int>, kind: string)
    requires IsTrade(kind)
    requires SlotsMatch(data, ChartLabels(data), slots, kind)
    requires labels' == ChartLabels(data + [e])
    requires idx < |labels'| && labels'[idx] == e.dateLabel
    requires slots' == if e.kind == kind then slots[idx := Slot(slots, idx) + e.totalCost]
                       else if IsTrade(e.kind) then slots[idx := Slot(slots, idx)]
                       else slots
    ensures SlotsMatch(data + [e], labels', slots', kind)
  {
    var labels := ChartLabels(data);
    assert (data + [e])[..|data|] == data;
    assert labels'[..|labels|] == labels;
    ChartLabelsDistinct(data + [e]);
    if !Touched(data, e.dateLabel) {
    } else {
      TouchedIsLabel(data, e.dateLabel);
    }
    assert idx < |labels| ==> labels[idx] == e.dateLabel;
    forall j | 0 <= j < |labels'| && j != idx
      ensures j < |labels| && labels'[j] == labels[j] && labels'[j] != e.dateLabel
    {
    }
    forall j | 0 <= j < |labels'|
      ensures j in slots' <==> Touched(data + [e], labels'[j])
      ensures j in slots' ==> slots'[j] == LabelTotal(data + [e], labels'[j], kind)
    {
      AppendOne(data, e, labels'[j], kind);
      if j == idx && IsTrade(e.kind) {
        SlotAtEntry(data, e, slots, idx, kind, slots'[idx]);
      }
    }
  }

  /**
    renderChart's loop: labels without repetition, and for each touched label
    a BUY slot and a SELL slot holding that label's sums.
   */
  method RenderChart(data: seq<ChartEntry>) returns (labels: seq<string>, buyData: map<int, int>, sellData: map<int, int>)
    ensures labels == ChartLabels(data) && Distinct(labels)
    ensures forall j :: j in buyData <==> 0 <= j < |labels| && Touched(data, labels[j])
    ensures forall j :: j in sellData <==> 0 <= j < |labels| && Touched(data, labels[j])
    ensures forall j :: j in buyData ==> buyData[j] == LabelTotal(data, labels[j], Buy)
    ensures forall j :: j in sellData ==> sellData[j] == LabelTotal(data, labels[j], Sell)
  {
    labels, buyData, sellData := [], map[], map[];
    var i := 0;
    while i < |data|
      invariant 0 <= i <= |data|
      invariant labels == ChartLabels(data[..i])
      invariant SlotsMatch(data[..i], labels, buyData, Buy)
      invariant SlotsMatch(data[..i], labels, sellData, Sell)
    {
      var log := data[i];
      ghost var done := data[..i];
      ghost var oldBuy, oldSell := buyData, sellData;
      assert data[..i + 1] == done + [log];
      assert (done + [log])[..|done|] == done;
      if log.dateLabel !in labels {
        labels := labels + [log.dateLabel];
      }
      var idx := IndexOf(labels, log.dateLabel);
      if log.kind == Buy {
        buyData := buyData[idx := Slot(buyData, idx) + log.totalCost];
        sellData := sellData[idx := Slot(sellData, idx)];
      } else if log.kind == Sell {
        sellData := sellData[idx := Slot(sellData, idx) + log.totalCost];
        buyData := buyData[idx := Slot(buyData, idx)];
      }
      SlotStep(done, log, labels, idx, oldBuy, buyData, Buy);
      SlotStep(done, log, labels, idx, oldSell, sellData, Sell);
      i := i + 1;
    }
    assert data[..i] == data;
    ChartLabelsDistinct(data);
  }

  // ------------------------------------------------------------- page state

  datatype AddMoneyOutcome = RejectedAmount | Credited | RequestFailed

  /** The state of the profile component. */
  class ProfilePage {
    const userEmail: string
    var balance: int
    var stockLogs: seq<StockLog>
    var currentPage: int
    var totalProfit: int

    ghost predicate Valid()
      reads this
    {
      currentPage >= 0
    }

    constructor (email: string)
      ensures Valid()
      ensures userEmail == email && balance == 0 && stockLogs == [] && currentPage == 0 && totalProfit == 0
    {
      userEmail := email;
      balance, stockLogs, currentPage, totalProfit := 0, [], 0, 0;
    }

    function TotalPages(): nat
      reads this
    {
      PageCount(|stockLogs|)
    }

    function CurrentTransactions(): seq<StockLog>
      reads this
      requires Valid()
    {
      PageSlice(stockLogs, currentPage)
    }

    /** setStockLogs, then the effect on [stockLogs]: profit is recomputed only for a non-empty log. */
    method SetStockLogs(logs: seq<StockLog>)
      modifies this
      ensures stockLogs == logs
      ensures totalProfit == if |logs| > 0 then Profit(logs) else old(totalProfit)
      ensures balance == old(balance) && currentPage == old(currentPage)
    {
      stockLogs := logs;
      if |stockLogs| > 0 {
        totalProfit := CalculateProfit(stockLogs);
      }
    }

    method HandleNextPage()
      requires Valid()
      modifies this
      ensures Valid()
      ensures currentPage == NextPage(old(currentPage), TotalPages())
      ensures stockLogs == old(stockLogs) && balance == old(balance) && totalProfit == old(totalProfit)
    {
      if currentPage < TotalPages() - 1 {
        currentPage := currentPage + 1;
      }
    }

    method HandlePreviousPage()
      requires Valid()
      modifies this
      ensures Valid()
      ensures currentPage == PreviousPage(old(currentPage))
      ensures stockLogs == old(stockLogs) && balance == old(balance) && totalProfit == old(totalProfit)
    {
      if currentPage > 0 {
        currentPage := currentPage - 1;
      }
    }

    /**
      handleAddMoney: validate, show the optimistic balance, post to update-balance,
      then show the server's balance; on a failed request the optimistic value stays.
     */
    method HandleAddMoney(amount: Input, store: Store) returns (outcome: AddMoneyOutcome)
      requires store.Valid()
      modifies this, store
      ensures store.Valid()
      ensures (amount.NotNum? || amount.value <= 0) ==>
        outcome == RejectedAmount && balance == old(balance) && store.users == old(store.users)
      ensures amount.Num? && amount.value > 0 && userEmail in old(store.users) ==>
        && outcome == Credited
        && store.users == old(store.users)[userEmail := old(store.users)[userEmail].(balance := old(store.users)[userEmail].balance + amount.value)]
        && balance == store.users[userEmail].balance
      ensures amount.Num? && amount.value > 0 && userEmail !in old(store.users) ==>
        outcome == RequestFailed && balance == old(balance) + amount.value && store.users == old(store.users)
      ensures store.transactions == old(store.transactions) && store.stocks == old(store.stocks)
      ensures stockLogs == old(stockLogs) && currentPage == old(currentPage) && totalProfit == old(totalProfit)
    {
      if amount.NotNum? || amount.value <= 0 {
        return RejectedAmount;
      }
      var newBalance := balance + amount.value;
      balance := newBalance;
      var reply := store.UpdateBalance(userEmail, Num(amount.value));
      if reply.Ok? {
        balance := reply.value;
        outcome := Credited;
      } else {
        outcome := RequestFailed;
      }
    }
  }
}
