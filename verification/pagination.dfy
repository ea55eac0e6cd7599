/** `save_all_playlists`: walk the account's playlist listing page by page,
    turn each non-empty page into one batch of jobs run by a fresh pool, and
    stop at the first empty page or at the first request that raises. The
    provider's listing endpoint is a function from the requested offset to
    the page it returns or the message of the exception its request, its
    decoding or the `["items"]` lookup raised. */
module Pagination {
  import opened Results
  import opened Headers
  import opened Playlists

  const Limit: nat := 50

  /** One request of the listing: the user's playlists endpoint with the
      page size and offset in its query, and the token's headers. */
  datatype ListRequest = ListRequest(userId: string, headers: Headers, limit: nat, offset: nat)

  /** One page's worth of work: the pool's thread count and its jobs. */
  datatype Batch = Batch(poolSize: nat, jobs: seq<Job>)

  type Provider = nat -> Result<seq<PlaylistRef>, string>

  /** The run ends with the headers raising before any request, with an
      empty page, or with a listing request that raised; in the last two
      cases it records the requests it made and the batches it handed to
      pools before it stopped. */
  datatype ExportRun =
    | Aborted(error: string)
    | Listed(requests: seq<ListRequest>, batches: seq<Batch>)
    | ListingRaised(requests: seq<ListRequest>, batches: seq<Batch>, error: string)

  /** What the k-th request (counting from 0) receives. */
  function Page(provider: Provider, k: nat): Result<seq<PlaylistRef>, string> {
    provider(Limit * k)
  }

  /** The number of items the k-th request returned; none when it raised. */
  function PageSize(provider: Provider, k: nat): nat {
    if Page(provider, k).Success? then |Page(provider, k).value| else 0
  }

  /** Page k was returned and held at least one item. */
  predicate NonEmptyPage(provider: Provider, k: nat) {
    Page(provider, k).Success? && |Page(provider, k).value| > 0
  }

  /** Python `zip` of three lists: as long as the shortest, position by position. */
  function Zip3<A, B, C>(a: seq<A>, b: seq<B>, c: seq<C>): (r: seq<(A, B, C)>)
    ensures |r| == if |a| <= |b| && |a| <= |c| then |a| else if |b| <= |c| then |b| else |c|
    ensures forall i :: 0 <= i < |r| ==> r[i] == (a[i], b[i], c[i])
  {
    if |a| == 0 || |b| == 0 || |c| == 0 then []
    else [(a[0], b[0], c[0])] + Zip3(a[1..], b[1..], c[1..])
  }

  /** The batch for one page: a pool as large as the page, and the zip of
      the repeated token with the page's ids and names. */
  function MakeBatch(token: string, page: seq<PlaylistRef>): (b: Batch)
    ensures b.poolSize == |page| && |b.jobs| == |page|
    ensures forall i :: 0 <= i < |page| ==> b.jobs[i] == Job(token, page[i].id, page[i].name)
  {
    var args := Zip3(seq(|page|, _ => token),
                     seq(|page|, i requires 0 <= i < |page| => page[i].id),
                     seq(|page|, i requires 0 <= i < |page| => page[i].name));
    Batch(|page|, seq(|args|, i requires 0 <= i < |args| => Job(args[i].0, args[i].1, args[i].2)))
  }

  /** Request k asked for `Limit` items at offset `Limit * k` with the
      token's headers. */
  predicate RequestsMade(userId: string, token: string, requests: seq<ListRequest>) {
    forall k :: 0 <= k < |requests| ==>
      requests[k] == ListRequest(userId, GetHeaders(Some(token)).value, Limit, Limit * k)
  }

  /** Each of the first `|batches|` pages was returned, held items and
      became exactly one batch. */
  predicate BatchesFrom(token: string, provider: Provider, batches: seq<Batch>) {
    forall k :: 0 <= k < |batches| ==>
      NonEmptyPage(provider, k) && batches[k] == MakeBatch(token, Page(provider, k).value)
  }

  /** What a listing run that ran out of pages did: one request per batch
      and one more, whose page, `|batches|`, was the first empty one. */
  predicate ListedRun(userId: string, token: string, provider: Provider, requests: seq<ListRequest>, batches: seq<Batch>) {
    && |requests| == |batches| + 1
    && RequestsMade(userId, token, requests)
    && BatchesFrom(token, provider, batches)
    && Page(provider, |batches|) == Success([])
  }

  /** What a listing run cut short by an exception did: one request per
      batch and one more, the first one to raise. */
  predicate RaisedRun(userId: string, token: string, provider: Provider, requests: seq<ListRequest>, batches: seq<Batch>, error: string) {
    && |requests| == |batches| + 1
    && RequestsMade(userId, token, requests)
    && BatchesFrom(token, provider, batches)
    && Page(provider, |batches|) == Failure(error)
  }

  /** The listing loop. `bound` is a request the provider is known to
      answer with an empty page or an exception, which is what makes the
      loop finish. */
  method SaveAllPlaylists(userId: string, token: Option<string>, provider: Provider, ghost bound: nat) returns (run: ExportRun)
    requires !NonEmptyPage(provider, bound)
    ensures run.Aborted? <==> token.None?
    ensures run.Aborted? ==> run.error == NotAString
    ensures run.Listed? ==> ListedRun(userId, token.value, provider, run.requests, run.batches)
    ensures run.ListingRaised? ==> RaisedRun(userId, token.value, provider, run.requests, run.batches, run.error)
  {
    var headers := GetHeaders(token);
    if headers.Failure? {
      return Aborted(headers.error);
    }
    var offset: nat := 0;
    var requests: seq<ListRequest> := [];
    var batches: seq<Batch> := [];
    while true
      invariant offset == Limit * |batches| && |requests| == |batches|
      invariant |batches| <= bound
      invariant forall k :: 0 <= k < |requests| ==> requests[k] == ListRequest(userId, headers.value, Limit, Limit * k)
      invariant BatchesFrom(token.value, provider, batches)
      decreases bound - |batches|
    {
      var page := provider(offset);
      requests := requests + [ListRequest(userId, headers.value, Limit, offset)];
      if page.Failure? {
        return ListingRaised(requests, batches, page.error);
      }
      var items := page.value;
      offset := offset + Limit;
      if |items| == 0 {
        break;
      }
      batches := batches + [MakeBatch(token.value, items)];
    }
    run := Listed(requests, batches);
  }

  /** All jobs of a run, batch after batch. */
  function Jobs(batches: seq<Batch>): seq<Job> {
    if |batches| == 0 then [] else batches[0].jobs + Jobs(batches[1..])
  }

  /** Total size of the first `n` pages. */
  function SumSizes(provider: Provider, n: nat): nat {
    if n == 0 then 0 else SumSizes(provider, n - 1) + PageSize(provider, n - 1)
  }

  lemma {:induction false} JobsSnoc(batches: seq<Batch>, b: Batch)
    ensures Jobs(batches + [b]) == Jobs(batches) + b.jobs
    decreases |batches|
  {
    if |batches| == 0 {
      assert batches + [b] == [b];
    } else {
      assert (batches + [b])[1..] == batches[1..] + [b];
      JobsSnoc(batches[1..], b);
    }
  }

  /** The number of jobs a run creates, whether it ran out of pages or was
      cut short, is the total size of the non-empty pages it read. */
  lemma {:induction false} JobCount(token: string, provider: Provider, batches: seq<Batch>)
    requires BatchesFrom(token, provider, batches)
    ensures |Jobs(batches)| == SumSizes(provider, |batches|)
  {
    JobCountUpTo(token, provider, batches, |batches|);
    assert batches[..|batches|] == batches;
  }

  lemma {:induction false} JobCountUpTo(token: string, provider: Provider, batches: seq<Batch>, n: nat)
    requires n <= |batches|
    requires BatchesFrom(token, provider, batches)
    ensures |Jobs(batches[..n])| == SumSizes(provider, n)
  {
    if n > 0 {
      JobCountUpTo(token, provider, batches, n - 1);
      assert batches[..n] == batches[..n - 1] + [batches[n - 1]];
      JobsSnoc(batches[..n - 1], batches[n - 1]);
    }
  }

  /** The offset grows by `Limit` per request whatever the page held. When
      the provider never returns more than `Limit` items, the offset of
      request `k` is the number of items read before it exactly when every
      earlier page was full; after a short page it has moved past items
      that were never returned. */
  lemma {:induction false} OffsetMatchesItemsRead(provider: Provider, k: nat)
    requires forall j :: 0 <= j < k ==> PageSize(provider, j) <= Limit
    ensures SumSizes(provider, k) <= Limit * k
    ensures Limit * k == SumSizes(provider, k) <==> forall j :: 0 <= j < k ==> PageSize(provider, j) == Limit
  {
    if k > 0 {
      OffsetMatchesItemsRead(provider, k - 1);
    }
  }

  function Refs(n: nat): seq<PlaylistRef> {
    seq(n, _ => PlaylistRef("id", "name"))
  }

  /** A listing of pages of 50, 50, 13 and 0 items. */
  function SamplePages(offset: nat): Result<seq<PlaylistRef>, string> {
    Success(if offset < 100 then Refs(50) else if offset == 100 then Refs(13) else [])
  }

  /** Against that listing a run makes four requests, three batches and 113 jobs. */
  lemma SampleRun(userId: string, token: string, requests: seq<ListRequest>, batches: seq<Batch>)
    requires ListedRun(userId, token, SamplePages, requests, batches)
    ensures |requests| == 4 && |batches| == 3
    ensures |Jobs(batches)| == 113
  {
    JobCount(token, SamplePages, batches);
    assert SumSizes(SamplePages, 3) == 113;
  }
}
