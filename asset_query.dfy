/**
 * The paginated asset query (src/hooks/useAssets.ts): the `useAssets` hook's
 * four state cells and the transitions `fetchAssets` and `purchaseAsset` put
 * them through, plus the Previous/Next requests a listing builds from the
 * pagination flags (src/components/HomePage.tsx). The request itself is not
 * modelled: how it settled is a parameter.
 */
module AssetQuery {
  import opened Wrappers

  /** The fields of an asset record the model keeps (src/types/asset.ts). */
  datatype Asset = Asset(id: int, name: string, category: string, sellerName: string)

  /** A page as the server sends it (`PaginatedResponse<AssetResponseDto>`). */
  datatype PaginatedResponse = PaginatedResponse(
    items: seq<Asset>, totalCount: int, page: int, pageSize: int,
    totalPages: int, hasNextPage: bool, hasPreviousPage: bool)

  /** The `pagination` state cell: a response without its items. */
  datatype Pagination = Pagination(
    totalCount: int, page: int, pageSize: int,
    totalPages: int, hasNextPage: bool, hasPreviousPage: bool)

  /** The arguments of `fetchAssets`, forwarded as the query filter. */
  datatype FetchParams = FetchParams(
    page: int, pageSize: int,
    searchTerm: Option<string>, category: Option<string>, sortBy: Option<string>)

  /** A thrown value: an `Error` carries a message, anything else does not. */
  datatype Thrown = ErrorInstance(message: string) | OtherValue

  const FetchFailedMessage := "Failed to fetch assets"

  const InitialPagination := Pagination(0, 1, 10, 0, false, false)

  /** `err instanceof Error ? err.message : fallback` */
  function MessageOf(err: Thrown, fallback: string): string {
    match err
    case ErrorInstance(m) => m
    case OtherValue => fallback
  }

  /** `Math.ceil(n / d)` for a positive divisor: the least `q` with `n <= q * d`. */
  function CeilDiv(n: int, d: int): (q: int)
    requires d >= 1
    ensures (q - 1) * d < n <= q * d
  {
    var q := (n + d - 1) / d;
    assert q * d <= n + d - 1 < q * d + d;
    q
  }

  /** The ceiling is unique: any `q` bracketing `n` this way is `CeilDiv(n, d)`. */
  lemma CeilDivUnique(n: int, d: int, q: int)
    requires d >= 1 && (q - 1) * d < n <= q * d
    ensures q == CeilDiv(n, d)
  {
    var c := CeilDiv(n, d);
    // two different quotients would be at least a whole page apart, but the brackets overlap by less
    PageGap(q - c, d);
    PageGap(c - q, d);
    assert (q - c) * d == q * d - c * d && (c - q) * d == c * d - q * d;
    assert (q - 1) * d == q * d - d && (c - 1) * d == c * d - d;
  }

  /** `k` whole pages hold at least one page. */
  lemma {:induction false} PageGap(k: int, d: int)
    requires d >= 1
    ensures k >= 1 ==> k * d >= d
    decreases if k < 1 then 0 else k
  {
    if k > 1 {
      PageGap(k - 1, d);
      assert k * d == (k - 1) * d + d;
    }
  }

  /**
   * The two ways of saying "there is a later page" agree: the source's
   * `page * pageSize < totalCount` and `page < totalPages`.
   */
  lemma HasNextIffBeforeLastPage(page: int, pageSize: int, totalCount: int)
    requires pageSize >= 1
    ensures page * pageSize < totalCount <==> page < CeilDiv(totalCount, pageSize)
  {
  }

  /** The metadata `fetchAssets` derives from a page; the server's own derived fields are ignored. */
  function Paginate(r: PaginatedResponse): (p: Pagination)
    requires r.pageSize >= 1
    ensures p.totalCount == r.totalCount && p.page == r.page && p.pageSize == r.pageSize
    ensures (p.totalPages - 1) * p.pageSize < p.totalCount <= p.totalPages * p.pageSize
    ensures p.hasNextPage <==> p.page < p.totalPages
    ensures p.hasPreviousPage <==> p.page > 1
    ensures Derived(p)
  {
    HasNextIffBeforeLastPage(r.page, r.pageSize, r.totalCount);
    Pagination(r.totalCount, r.page, r.pageSize,
               CeilDiv(r.totalCount, r.pageSize),
               r.page * r.pageSize < r.totalCount,
               r.page > 1)
  }

  /** Pagination metadata that agrees with its own counts, as `fetchAssets` computes it. */
  predicate Derived(p: Pagination) {
    && p.pageSize >= 1
    && p.totalPages == CeilDiv(p.totalCount, p.pageSize)
    && p.hasNextPage == (p.page * p.pageSize < p.totalCount)
    && p.hasPreviousPage == (p.page > 1)
  }

  /** The initial pagination already agrees with its counts. */
  lemma InitialDerived()
    ensures Derived(InitialPagination)
  {
  }

  /** 95 assets in pages of 10: page 3 has both neighbours, page 10 is the last. */
  lemma PaginationExamples()
    ensures var p := Paginate(PaginatedResponse([], 95, 3, 10, 0, false, false));
            p.totalPages == 10 && p.hasNextPage && p.hasPreviousPage
    ensures !Paginate(PaginatedResponse([], 95, 10, 10, 0, false, false)).hasNextPage
  {
  }

  /** The request behind "Previous": offered only when `hasPreviousPage`, and never for page 0. */
  function PreviousPageRequest(p: Pagination): (r: Option<FetchParams>)
    ensures r.Some? <==> p.hasPreviousPage
    ensures r.Some? ==> r.value.page == p.page - 1 && r.value.pageSize == p.pageSize
    ensures r.Some? && Derived(p) ==> r.value.page >= 1
  {
    if p.hasPreviousPage then Some(FetchParams(p.page - 1, p.pageSize, None, None, None)) else None
  }

  /** The request behind "Next": offered only when `hasNextPage`, and never past the last page. */
  function NextPageRequest(p: Pagination): (r: Option<FetchParams>)
    ensures r.Some? <==> p.hasNextPage
    ensures r.Some? ==> r.value.page == p.page + 1 && r.value.pageSize == p.pageSize
    ensures r.Some? && Derived(p) ==> r.value.page <= p.totalPages
  {
    if !p.hasNextPage then None
    else
      assert Derived(p) ==> p.page < p.totalPages by {
        if Derived(p) { HasNextIffBeforeLastPage(p.page, p.pageSize, p.totalCount); }
      }
      Some(FetchParams(p.page + 1, p.pageSize, None, None, None))
  }

  /** One `useAssets()` instance: its state cells. */
  class AssetListing {
    var assets: seq<Asset>
    var loading: bool
    var error: Option<string>
    var pagination: Pagination

    /** The pagination cell always agrees with its own counts. */
    ghost predicate Valid()
      reads this
    {
      Derived(pagination)
    }

    constructor ()
      ensures Valid()
      ensures assets == [] && !loading && error == None && pagination == InitialPagination
    {
      assets := [];
      loading := false;
      error := None;
      pagination := InitialPagination;
    }

    /** The first two steps of `fetchAssets`, before the request settles. */
    method BeginFetch()
      requires Valid()
      modifies this
      ensures Valid()
      ensures loading && error == None
      ensures assets == old(assets) && pagination == old(pagination)
    {
      loading := true;
      error := None;
    }

    /** The rest of `fetchAssets`, once the request has settled with `outcome`. */
    method SettleFetch(outcome: Result<PaginatedResponse, Thrown>)
      requires Valid()
      requires outcome.Success? ==> outcome.value.pageSize >= 1
      modifies this
      ensures Valid() && !loading
      ensures outcome.Success? ==>
                && assets == outcome.value.items
                && pagination == Paginate(outcome.value)
                && error == old(error)
      ensures outcome.Failure? ==>
                && assets == old(assets)
                && pagination == old(pagination)
                && error == Some(MessageOf(outcome.error, FetchFailedMessage))
    {
      match outcome {
        case Success(response) =>
          assets := response.items;
          pagination := Paginate(response);
        case Failure(err) =>
          error := Some(MessageOf(err, FetchFailedMessage));
      }
      loading := false;
    }

    /**
     * `fetchAssets(params)`; `outcome` is how the request for `params` settled.
     * A success replaces the assets and the metadata; a failure keeps both and
     * records its message.
     */
    method FetchAssets(params: FetchParams, outcome: Result<PaginatedResponse, Thrown>)
      requires Valid()
      requires outcome.Success? ==> outcome.value.pageSize >= 1
      modifies this
      ensures Valid() && !loading
      ensures outcome.Success? ==>
                && assets == outcome.value.items
                && pagination == Paginate(outcome.value)
                && error == None
      ensures outcome.Failure? ==>
                && assets == old(assets)
                && pagination == old(pagination)
                && error == Some(MessageOf(outcome.error, FetchFailedMessage))
    {
      BeginFetch();
      SettleFetch(outcome);
    }

    /** `purchaseAsset(id)`: touches only `loading`, and re-raises a failure. */
    method PurchaseAsset(id: int, outcome: Result<(), Thrown>) returns (raised: Option<Thrown>)
      requires Valid()
      modifies this
      ensures Valid() && !loading
      ensures assets == old(assets) && pagination == old(pagination) && error == old(error)
      ensures raised == (if outcome.Failure? then Some(outcome.error) else None)
    {
      loading := true;
      match outcome {
        case Success(_) =>
          raised := None;
        case Failure(err) =>
          raised := Some(err);
      }
      loading := false;
    }
  }
}
