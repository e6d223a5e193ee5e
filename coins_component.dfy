/** The `Coins` component's feed state and its `fetchCoins` transition.

    The five state cells of the component are the fields of `CoinFeed`;
    `fetchCoins` is split at its `await` points into `BeginLoad` (mark
    loading, compute the requested offset) and `CompleteLoad` (apply the
    fetch outcome, clear loading). The fetch itself is not modelled: its
    outcome is the argument of `CompleteLoad`. */
module CoinsComponent {
  import opened Options
  import opened FeedSpec

  class CoinFeed {
    /** `ITEMS_PER_PAGE`, the page size every request asks for. */
    const itemsPerPage: int

    var coins: seq<Coin>
    var loading: bool
    var hasMore: bool
    var totalCount: int
    var offset: int

    /** The offset the most recent `BeginLoad` asked for. */
    ghost var requested: int

    /** The feed's state cells as a value. */
    function State(): (f: Feed)
      reads this
    {
      Feed(coins, loading, hasMore, totalCount, offset)
    }

    /** The feed invariant, and: while a load is in flight, the offset has not
        moved since that load computed its request. */
    ghost predicate Valid()
      reads this
    {
      Inv(State(), itemsPerPage)
      && (loading ==> requested == offset + itemsPerPage)
    }

    constructor (itemsPerPage: int)
      requires itemsPerPage > 0
      ensures Valid() && this.itemsPerPage == itemsPerPage
      ensures coins == [] && !loading && hasMore && totalCount == 200 && offset == -itemsPerPage
      ensures State() == Initial(itemsPerPage)
    {
      this.itemsPerPage := itemsPerPage;
      coins := [];
      loading := false;
      hasMore := true;
      totalCount := TotalCount;
      offset := -itemsPerPage;
      requested := 0;
      new;
      InitialInv(itemsPerPage);
    }

    /** Starts a load and returns the offset it requests from the remote source. */
    method BeginLoad() returns (newOffset: int)
      requires Valid()
      modifies this
      ensures Valid()
      ensures newOffset == RequestOffset(old(State()), itemsPerPage) && newOffset == requested
      ensures State() == Begin(old(State()))
    {
      loading := true;
      newOffset := offset + itemsPerPage;
      requested := newOffset;
      StepInv(old(State()), itemsPerPage, BeginCall);
    }

    /** Finishes a load with the fetch outcome, `None` when the request failed. */
    method CompleteLoad(resp: Option<seq<Coin>>)
      requires Valid()
      modifies this
      ensures Valid() && requested == old(requested)
      ensures State() == Complete(old(State()), itemsPerPage, resp)
      ensures Applies(old(State()), resp) ==> offset == old(requested)
    {
      ghost var before := State();
      var newOffset := offset + itemsPerPage;
      if resp.Some? && loading {
        var newCoins := coins + resp.value;
        if |newCoins| >= totalCount {
          hasMore := false;
        }
        coins := newCoins;
        offset := newOffset;
      }
      loading := false;
      StepInv(before, itemsPerPage, CompleteCall(resp));
    }

    /** One whole `fetchCoins` call, run without interruption. */
    method FetchCoins(resp: Option<seq<Coin>>)
      requires Valid()
      modifies this
      ensures Valid()
      ensures State() == Load(old(State()), itemsPerPage, resp)
    {
      var _ := BeginLoad();
      CompleteLoad(resp);
    }
  }

  /** A failed first load followed by two full pages of 100 coins. */
  method ScenarioRetryThenExhaust(c: Coin)
  {
    var feed := new CoinFeed(100);
    var o := feed.BeginLoad();
    assert o == 0;
    feed.CompleteLoad(None);
    assert feed.coins == [] && feed.offset == -100 && feed.hasMore && !feed.loading;

    o := feed.BeginLoad();
    assert o == 0;
    var page := seq(100, _ => c);
    feed.CompleteLoad(Some(page));
    assert |feed.coins| == 100 && feed.offset == 0 && feed.hasMore;

    o := feed.BeginLoad();
    assert o == 100;
    feed.CompleteLoad(Some(page));
    assert |feed.coins| == 200 && feed.offset == 100 && !feed.hasMore;

    o := feed.BeginLoad();
    feed.CompleteLoad(Some(page));
    assert |feed.coins| == 300 && feed.offset == 200 && !feed.hasMore;
  }
}
