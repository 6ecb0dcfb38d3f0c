/** Queue and size bookkeeping of the download manager: `remove` takes
    downloads out of the wait-start, running and finished collections and
    gives back their provisioned sizes; `_provision` files a download into
    the wait-start queue (adding its size) or, when provisioning failed,
    into the finished queue. */
module DownloadQueues {

  /** A download as the manager sees it. `id` stands for the object's
      identity: the Java collections compare downloads by reference, so a
      download is found by its `id` whatever its other fields hold. */
  datatype Download = Download(id: nat, provisionOk: bool, fileSize: int, url: string)

  /** The identities of the downloads in `q`, in order. */
  function Ids(q: seq<Download>): seq<nat>
  {
    seq(|q|, i requires 0 <= i < |q| => q[i].id)
  }

  lemma IdsCons(q: seq<Download>)
    requires q != []
    ensures Ids(q) == [q[0].id] + Ids(q[1..])
  {
  }

  lemma IdsConcat(a: seq<Download>, b: seq<Download>)
    ensures Ids(a + b) == Ids(a) + Ids(b)
  {
  }

  /** `Collection.remove(Object)`: drop the first download with the identity
      of `d`, if any. */
  function RemoveFirst(q: seq<Download>, d: Download): (r: seq<Download>)
    ensures d.id in Ids(q) ==> |r| == |q| - 1
    ensures d.id !in Ids(q) ==> r == q
  {
    if q == [] then []
    else
      IdsCons(q);
      if q[0].id == d.id then q[1..]
      else
        var rest := RemoveFirst(q[1..], d);
        IdsConcat([q[0]], rest);
        [q[0]] + rest
  }

  /** `RemoveFirst` takes out one occurrence of the identity of `d`, if there
      is one, and nothing else. */
  lemma {:induction false} RemoveFirstCount(q: seq<Download>, d: Download, x: nat)
    ensures multiset(Ids(RemoveFirst(q, d)))[x] ==
              if x == d.id && x in Ids(q) then multiset(Ids(q))[x] - 1 else multiset(Ids(q))[x]
  {
    if q != [] {
      assert q == [q[0]] + q[1..];
      IdsConcat([q[0]], q[1..]);
      if q[0].id != d.id {
        RemoveFirstCount(q[1..], d, x);
        IdsConcat([q[0]], RemoveFirst(q[1..], d));
      }
    }
  }

  /** The queue after `remove` has been called for each of `ds`, in order. */
  function RemoveEach(q: seq<Download>, ds: seq<Download>): seq<Download>
  {
    if ds == [] then q
    else RemoveFirst(RemoveEach(q, ds[..|ds| - 1]), ds[|ds| - 1])
  }

  /** Sum of the file sizes of the provisioned downloads among `ds`. */
  function ProvisionedSize(ds: seq<Download>): int
  {
    if ds == [] then 0
    else ProvisionedSize(ds[..|ds| - 1])
         + (if ds[|ds| - 1].provisionOk then ds[|ds| - 1].fileSize else 0)
  }

  /** URLs of the provisioned downloads among `ds`, in order. */
  function ProvisionedUrls(ds: seq<Download>): seq<string>
  {
    if ds == [] then []
    else ProvisionedUrls(ds[..|ds| - 1])
         + (if ds[|ds| - 1].provisionOk then [ds[|ds| - 1].url] else [])
  }

  /** The downloads of `q` whose identity is not among those of `ds`, in
      their order. */
  function Others(q: seq<Download>, ds: seq<Download>): seq<Download>
  {
    if q == [] then []
    else (if q[0].id in Ids(ds) then [] else [q[0]]) + Others(q[1..], ds)
  }

  /** No download is queued twice. */
  predicate NoDuplicates(q: seq<Download>)
  {
    forall x | x in Ids(q) :: multiset(Ids(q))[x] <= 1
  }

  lemma SnocCount(ds: seq<Download>, x: nat)
    requires ds != []
    ensures multiset(Ids(ds))[x] == multiset(Ids(ds[..|ds| - 1]))[x] + (if x == ds[|ds| - 1].id then 1 else 0)
  {
    var init, last := ds[..|ds| - 1], ds[|ds| - 1];
    assert Ids(ds) == Ids(init) + [last.id] by {
      assert ds == init + [last];
      IdsConcat(init, [last]);
    }
    assert multiset(Ids(ds)) == multiset(Ids(init)) + multiset{last.id};
  }

  /** Removing each of `ds` in turn takes out one occurrence per listed
      download, as far as there are occurrences. */
  lemma {:induction false} RemoveEachCount(q: seq<Download>, ds: seq<Download>, x: nat)
    ensures multiset(Ids(RemoveEach(q, ds)))[x] ==
              if multiset(Ids(q))[x] >= multiset(Ids(ds))[x] then multiset(Ids(q))[x] - multiset(Ids(ds))[x] else 0
  {
    if ds != [] {
      var init, last := ds[..|ds| - 1], ds[|ds| - 1];
      var r := RemoveEach(q, init);
      assert RemoveEach(q, ds) == RemoveFirst(r, last);
      var before, listed := multiset(Ids(q))[x], multiset(Ids(init))[x];
      RemoveEachCount(q, init, x);
      assert multiset(Ids(r))[x] == if before >= listed then before - listed else 0;
      RemoveFirstCount(r, last, x);
      assert x in Ids(r) <==> multiset(Ids(r))[x] > 0;
      SnocCount(ds, x);
    }
  }

  /** After removal, a listed download is gone from a queue that held it at most once. */
  lemma RemovedAreGone(q: seq<Download>, ds: seq<Download>, d: Download)
    requires NoDuplicates(q)
    requires d in ds
    ensures d.id !in Ids(RemoveEach(q, ds))
  {
    RemoveEachCount(q, ds, d.id);
    var i :| 0 <= i < |ds| && ds[i] == d;
    assert Ids(ds)[i] == d.id;
    assert multiset(Ids(ds))[d.id] >= 1;
  }

  /** A download that is not listed keeps every occurrence it had. */
  lemma OthersStay(q: seq<Download>, ds: seq<Download>, x: nat)
    requires x !in Ids(ds)
    ensures multiset(Ids(RemoveEach(q, ds)))[x] == multiset(Ids(q))[x]
    ensures x in Ids(RemoveEach(q, ds)) <==> x in Ids(q)
  {
    RemoveEachCount(q, ds, x);
  }

  lemma {:induction false} RemoveFirstKeepsOthers(q: seq<Download>, d: Download, ds: seq<Download>)
    requires d.id in Ids(ds)
    ensures Others(RemoveFirst(q, d), ds) == Others(q, ds)
  {
    if q != [] && q[0].id != d.id {
      RemoveFirstKeepsOthers(q[1..], d, ds);
      assert ([q[0]] + RemoveFirst(q[1..], d))[1..] == RemoveFirst(q[1..], d);
    }
  }

  /** The downloads that were not listed stay in the same relative order. */
  lemma {:induction false} RemoveEachKeepsOrder(q: seq<Download>, ds: seq<Download>, all: seq<Download>)
    requires forall i :: 0 <= i < |ds| ==> ds[i].id in Ids(all)
    ensures Others(RemoveEach(q, ds), all) == Others(q, all)
  {
    if ds != [] {
      RemoveEachKeepsOrder(q, ds[..|ds| - 1], all);
      RemoveFirstKeepsOthers(RemoveEach(q, ds[..|ds| - 1]), ds[|ds| - 1], all);
    }
  }

  /** The deletion list has one URL per provisioned removed download, and
      the total shrinks by exactly their sizes. */
  lemma {:induction false} ProvisionedUrlsCount(ds: seq<Download>)
    ensures |ProvisionedUrls(ds)| == |Provisioned(ds)|
    ensures ProvisionedSize(ds) == SizeSum(Provisioned(ds))
  {
    if ds != [] {
      var init := ds[..|ds| - 1];
      ProvisionedUrlsCount(init);
      SizeSumAppend(Provisioned(init), if ds[|ds| - 1].provisionOk then [ds[|ds| - 1]] else []);
    }
  }

  /** The provisioned downloads among `ds`, in order. */
  function Provisioned(ds: seq<Download>): (r: seq<Download>)
    ensures forall i :: 0 <= i < |r| ==> r[i].provisionOk && r[i] in ds
  {
    if ds == [] then []
    else Provisioned(ds[..|ds| - 1]) + (if ds[|ds| - 1].provisionOk then [ds[|ds| - 1]] else [])
  }

  function SizeSum(ds: seq<Download>): int
  {
    if ds == [] then 0 else SizeSum(ds[..|ds| - 1]) + ds[|ds| - 1].fileSize
  }

  lemma {:induction false} SizeSumAppend(a: seq<Download>, b: seq<Download>)
    ensures SizeSum(a + b) == SizeSum(a) + SizeSum(b)
  {
    if b != [] {
      SizeSumAppend(a, b[..|b| - 1]);
      assert (a + b)[..|a + b| - 1] == a + b[..|b| - 1];
      assert (a + b)[|a + b| - 1] == b[|b| - 1];
    } else {
      assert a + b == a;
    }
  }

  /** The deleted URLs are the URLs of the provisioned downloads, position by position. */
  lemma {:induction false} ProvisionedUrlsAre(ds: seq<Download>, k: nat)
    requires k < |ProvisionedUrls(ds)|
    ensures |ProvisionedUrls(ds)| == |Provisioned(ds)|
    ensures ProvisionedUrls(ds)[k] == Provisioned(ds)[k].url
  {
    ProvisionedUrlsCount(ds);
    var init := ds[..|ds| - 1];
    ProvisionedUrlsCount(init);
    if k < |ProvisionedUrls(init)| {
      ProvisionedUrlsAre(init, k);
    }
  }

  /** Unprovisioned downloads contribute nothing to the total. */
  lemma {:induction false} UnprovisionedSizeZero(ds: seq<Download>)
    requires forall i :: 0 <= i < |ds| ==> !ds[i].provisionOk
    ensures ProvisionedSize(ds) == 0 && ProvisionedUrls(ds) == []
  {
    if ds != [] {
      UnprovisionedSizeZero(ds[..|ds| - 1]);
    }
  }

  /** The manager's three collections and the running total of the sizes of
      provisioned downloads it holds. */
  class DownloadManager {
    var waitStart: seq<Download>
    var running: seq<Download>
    var finished: seq<Download>
    var total: int

    /** `remove(Transference[])`: returns the URLs handed to `deleteDownloads`. */
    method Remove(downloads: seq<Download>) returns (deleted: seq<string>)
      modifies this
      ensures waitStart == RemoveEach(old(waitStart), downloads)
      ensures running == RemoveEach(old(running), downloads)
      ensures finished == RemoveEach(old(finished), downloads)
      ensures total == old(total) - ProvisionedSize(downloads)
      ensures deleted == ProvisionedUrls(downloads)
    {
      deleted := [];
      var i := 0;
      while i < |downloads|
        invariant 0 <= i <= |downloads|
        invariant waitStart == RemoveEach(old(waitStart), downloads[..i])
        invariant running == RemoveEach(old(running), downloads[..i])
        invariant finished == RemoveEach(old(finished), downloads[..i])
        invariant total == old(total) - ProvisionedSize(downloads[..i])
        invariant deleted == ProvisionedUrls(downloads[..i])
      {
        var d := downloads[i];
        ghost var next := downloads[..i + 1];
        assert next[..i] == downloads[..i] && next[i] == d;
        assert RemoveEach(old(waitStart), next) == RemoveFirst(waitStart, d);
        assert RemoveEach(old(running), next) == RemoveFirst(running, d);
        assert RemoveEach(old(finished), next) == RemoveFirst(finished, d);
        waitStart := RemoveFirst(waitStart, d);
        running := RemoveFirst(running, d);
        finished := RemoveFirst(finished, d);
        if d.provisionOk {
          total := total - d.fileSize;
          deleted := deleted + [d.url];
        }
        i := i + 1;
      }
      assert downloads[..i] == downloads;
    }

    /** `_provision(download, retry)` once `provisionIt` has returned:
        `d.provisionOk` is what it decided. */
    method Provision(d: Download)
      modifies this
      ensures running == old(running)
      ensures d.provisionOk ==>
                total == old(total) + d.fileSize && waitStart == old(waitStart) + [d] && finished == old(finished)
      ensures !d.provisionOk ==>
                total == old(total) && waitStart == old(waitStart) && finished == old(finished) + [d]
    {
      if d.provisionOk {
        total := total + d.fileSize;
        waitStart := waitStart + [d];
      } else {
        finished := finished + [d];
      }
    }
  }

  /** A successful provision followed by removing the same download gives
      back the original total and queues, when the download was not queued
      before. */
  lemma {:induction false} ProvisionThenRemove(q: seq<Download>, fin: seq<Download>, total: int, d: Download)
    requires d.provisionOk
    requires d.id !in Ids(q) && d.id !in Ids(fin)
    ensures RemoveEach(q + [d], [d]) == q
    ensures RemoveEach(fin, [d]) == fin
    ensures (total + d.fileSize) - ProvisionedSize([d]) == total
    ensures ProvisionedUrls([d]) == [d.url]
  {
    assert [d][..0] == [];
    AppendRemoveFirst(q, d);
  }

  lemma {:induction false} AppendRemoveFirst(q: seq<Download>, d: Download)
    requires d.id !in Ids(q)
    ensures RemoveFirst(q + [d], d) == q
  {
    if q != [] {
      assert Ids(q) == [q[0].id] + Ids(q[1..]);
      AppendRemoveFirst(q[1..], d);
      assert (q + [d])[1..] == q[1..] + [d];
    } else {
      assert Ids([d]) == [d.id];
    }
  }
}
