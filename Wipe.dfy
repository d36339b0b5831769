/**
 * The data-wipe page of app/routes/wipe.tsx: the listing it loads, the delete loop over that
 * listing followed by one flush of the key-value store, and the redirect for visitors who are
 * not signed in. Each awaited call is given the outcome it settles with. Nothing catches a
 * rejection, so the first one ends the handler where it stands.
 */
module Wipe {
  import opened Remote
  import opened Cloud
  import Session
  import Resume

  /** An entry of `fs.readDir("./")`. */
  datatype FSItem = FSItem(id: string, name: string, path: string)

  /** The platform calls one `handleDelete` issues, in order. */
  datatype WipeCall = DeleteCall(path: string) | FlushCall | ReadDirCall

  function Paths(items: seq<FSItem>): (paths: seq<string>)
    ensures |paths| == |items|
    ensures forall i :: 0 <= i < |items| ==> paths[i] == items[i].path
  {
    if items == [] then [] else [items[0].path] + Paths(items[1..])
  }

  function DeleteCalls(paths: seq<string>): (calls: seq<WipeCall>)
    ensures |calls| == |paths|
    ensures forall i :: 0 <= i < |paths| ==> calls[i] == DeleteCall(paths[i])
  {
    if paths == [] then [] else [DeleteCall(paths[0])] + DeleteCalls(paths[1..])
  }

  function Elements(paths: seq<string>): set<string> {
    set p | p in paths
  }

  /** One more path deleted: one more call, one more path gone. */
  lemma DeletedOneMore(paths: seq<string>, i: nat)
    requires i < |paths|
    ensures DeleteCalls(paths[..i + 1]) == DeleteCalls(paths[..i]) + [DeleteCall(paths[i])]
    ensures Elements(paths[..i + 1]) == Elements(paths[..i]) + {paths[i]}
  {
    assert paths[..i + 1] == paths[..i] + [paths[i]];
  }

  /** The index of the first delete that rejects, or the number of deletes when none does. */
  function FirstFailure(deletes: seq<Ack>): (k: nat)
    ensures k <= |deletes|
    ensures forall j :: 0 <= j < k ==> deletes[j].Resolved?
    ensures k < |deletes| ==> deletes[k].Rejected?
  {
    if deletes == [] then 0
    else if deletes[0].Rejected? then 0
    else 1 + FirstFailure(deletes[1..])
  }

  /** The two properties above pin `FirstFailure` down: any index with them is it. */
  lemma FirstFailureUnique(deletes: seq<Ack>, k: nat)
    requires k <= |deletes|
    requires forall j :: 0 <= j < k ==> deletes[j].Resolved?
    requires k < |deletes| ==> deletes[k].Rejected?
    ensures FirstFailure(deletes) == k
  {
  }

  /** What one `handleDelete` does: the calls it issues and the page and store state it leaves. */
  datatype Wiped = Wiped(
    calls: seq<WipeCall>,
    blobs: set<string>,
    kv: map<string, Resume.Record>,
    files: seq<FSItem>,
    showConfirm: bool,
    isWiping: bool)

  /**
   * `handleDelete` over the listing `files` it holds. `deletes[i]` settles the delete of
   * `files[i]`; `listing` settles the `readDir` of the reload.
   */
  function WipeEffect(
    files: seq<FSItem>, deletes: seq<Ack>, flush: Ack, listing: Outcome<seq<FSItem>>,
    blobs: set<string>, kv: map<string, Resume.Record>, showConfirm: bool): (r: Wiped)
    requires |deletes| == |files|
    // the paths are deleted in listing order, each once, and nothing else comes before the flush
    ensures FirstFailure(deletes) < |files| ==> r.calls == DeleteCalls(Paths(files)[..FirstFailure(deletes) + 1])
    ensures FirstFailure(deletes) == |files| ==>
      r.calls == DeleteCalls(Paths(files)) + if flush.Resolved? then [FlushCall, ReadDirCall] else [FlushCall]
    // the flush happens exactly once, and only after every delete resolved
    ensures FlushCall in r.calls <==> FirstFailure(deletes) == |files|
    ensures FirstFailure(deletes) == |files| ==> r.calls[|files|] == FlushCall
    // only the paths whose delete resolved are gone; the failing one and those after it stay
    ensures r.blobs == blobs - Elements(Paths(files)[..FirstFailure(deletes)])
    ensures r.kv == if FirstFailure(deletes) == |files| && flush.Resolved? then map[] else kv
    // a rejection anywhere leaves the page wiping, with its old listing and dialog
    ensures !r.isWiping <==> FirstFailure(deletes) == |files| && flush.Resolved? && listing.Resolved?
    ensures r.isWiping ==> r.files == files && r.showConfirm == showConfirm
    ensures !r.isWiping ==> r.files == listing.value && !r.showConfirm
  {
    var k := FirstFailure(deletes);
    var paths := Paths(files);
    if k < |files| then
      Wiped(DeleteCalls(paths[..k + 1]), blobs - Elements(paths[..k]), kv, files, showConfirm, true)
    else
      var deleted := DeleteCalls(paths);
      assert paths[..k] == paths;
      assert FlushCall !in deleted;
      var cleared := if flush.Resolved? then map[] else kv;
      if flush.Rejected? then
        Wiped(deleted + [FlushCall], blobs - Elements(paths), kv, files, showConfirm, true)
      else if listing.Rejected? then
        Wiped(deleted + [FlushCall, ReadDirCall], blobs - Elements(paths), cleared, files, showConfirm, true)
      else
        Wiped(deleted + [FlushCall, ReadDirCall], blobs - Elements(paths), cleared, listing.value, false, false)
  }

  /** Whether the guard effect navigates, and where: only a settled, signed-out session is sent away. */
  function AuthRedirect(isAuthenticating: bool, isAuthenticated: bool): (target: Option<string>)
    ensures target.Some? <==> !isAuthenticating && !isAuthenticated
    ensures target.Some? ==> target.value == "/auth?next=/wipe"
  {
    if !isAuthenticating && !isAuthenticated then Some("/auth?next=/wipe") else None
  }

  /**
   * After an auth probe the guard redirects exactly when the probe did not end signed in:
   * a failed probe and a "not signed in" answer both send the visitor to sign in.
   */
  lemma ProbeDecidesRedirect(s: Session.StoreState, p: Session.Platform)
    ensures var t := Session.Last(Session.CheckAuthStatusEffect(s, p).published);
      AuthRedirect(t.isAuthenticating, t.isAuthenticated).Some? <==> !Session.ProbeSucceeds(p)
  {
  }

  class WipePage {
    var files: seq<FSItem>
    var showConfirm: bool
    var isWiping: bool

    constructor ()
      ensures files == [] && !showConfirm && !isWiping
    {
      files, showConfirm, isWiping := [], false, false;
    }

    /** `loadFiles`: a resolved listing replaces `files`; a rejected one leaves them. */
    method LoadFiles(listing: Outcome<seq<FSItem>>) returns (r: Outcome<seq<FSItem>>)
      modifies this
      ensures r == listing
      ensures files == if listing.Resolved? then listing.value else old(files)
      ensures showConfirm == old(showConfirm) && isWiping == old(isWiping)
    {
      r := listing;
      if listing.Resolved? {
        files := listing.value;
      }
    }

    /** The "Wipe All Data" button, which is disabled while wiping. */
    method AskConfirm()
      modifies this
      ensures showConfirm == (old(showConfirm) || !isWiping)
      ensures files == old(files) && isWiping == old(isWiping)
    {
      if !isWiping {
        showConfirm := true;
      }
    }

    /** The dialog's "Cancel" button, which is disabled while wiping. */
    method Cancel()
      modifies this
      ensures showConfirm == (old(showConfirm) && isWiping)
      ensures files == old(files) && isWiping == old(isWiping)
    {
      if !isWiping {
        showConfirm := false;
      }
    }

    /** `handleDelete`: delete every listed path, flush the key-value store, reload the listing. */
    method HandleDelete(cloud: Storage, deletes: seq<Ack>, flush: Ack, listing: Outcome<seq<FSItem>>)
      returns (calls: seq<WipeCall>)
      requires |deletes| == |files|
      modifies this, cloud
      ensures var r := WipeEffect(old(files), deletes, flush, listing, old(cloud.blobs), old(cloud.kv), old(showConfirm));
        && calls == r.calls && cloud.blobs == r.blobs && cloud.kv == r.kv
        && files == r.files && showConfirm == r.showConfirm && isWiping == r.isWiping
    {
      isWiping := true;
      // the loop runs over the listing held when the handler starts
      var failed;
      calls, failed := DeletePaths(cloud, Paths(files), deletes);
      if failed {
        return;
      }
      assert FirstFailure(deletes) == |files| && Paths(files)[..|files|] == Paths(files);

      calls := calls + [FlushCall];
      var flushed := cloud.Flush(flush);
      if flushed.Rejected? {
        return;
      }
      calls := calls + [ReadDirCall];
      var reloaded := LoadFiles(listing);
      if reloaded.Rejected? {
        return;
      }
      showConfirm := false;
      isWiping := false;
    }
  }

  /** The `for ... of` loop of `handleDelete`: one awaited delete per path, stopped by the first rejection. */
  method DeletePaths(cloud: Storage, paths: seq<string>, deletes: seq<Ack>) returns (calls: seq<WipeCall>, failed: bool)
    requires |deletes| == |paths|
    modifies cloud
    ensures failed <==> FirstFailure(deletes) < |paths|
    ensures calls == DeleteCalls(paths[..if failed then FirstFailure(deletes) + 1 else |paths|])
    ensures cloud.blobs == old(cloud.blobs) - Elements(paths[..FirstFailure(deletes)])
    ensures cloud.kv == old(cloud.kv)
  {
    calls, failed := [], false;
    var i := 0;
    while i < |paths|
      invariant 0 <= i <= |paths| && i <= FirstFailure(deletes)
      invariant calls == DeleteCalls(paths[..i])
      invariant cloud.blobs == old(cloud.blobs) - Elements(paths[..i])
      invariant cloud.kv == old(cloud.kv)
    {
      calls := calls + [DeleteCall(paths[i])];
      var deleted := cloud.Delete(paths[i], deletes[i]);
      DeletedOneMore(paths, i);
      if deleted.Rejected? {
        assert i == FirstFailure(deletes);
        return calls, true;
      }
      i := i + 1;
    }
    assert i == FirstFailure(deletes) && paths[..i] == paths;
  }
}
