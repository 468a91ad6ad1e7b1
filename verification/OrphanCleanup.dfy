/**
 The cleanup of orphaned attachment files in app/attachment_channel.main.ts: files on disk that
 nothing refers to any more are deleted, but only after everything that may refer to them was read.
 */
module OrphanCleanup {
  import opened Wrappers
  import opened Lists

  /** One read of the cursor over all messages; `more` is false when the cursor is done or absent. */
  datatype Read = Page(attachments: seq<string>, downloads: seq<string>, more: bool) | ReadFails

  /**
   What the disk and the database answer; `None` where a read fails. `cursorCloses` holds when there is no
   cursor to close.
   */
  datatype World = World(
    diskAttachments: Option<seq<string>>,
    diskDownloads: Option<seq<string>>,
    conversationAttachments: Option<seq<string>>,
    knownDownloads: Option<seq<string>>,
    cursorReads: seq<Read>,
    cursorCloses: bool,
    protectedPaths: Option<seq<string>>,
    vanished: set<string>,
    deletionSucceeds: bool)

  /** What the two deletions were called with, if they were called. */
  datatype Deleted = Deleted(attachments: Option<set<string>>, downloads: Option<set<string>>)

  const Nothing := Deleted(None, None)

  /** The pages read when the cursor is done, unless a read fails or the reading never comes to an end. */
  function AllPages(rs: seq<Read>): Option<seq<Read>> {
    if rs == [] || rs[0].ReadFails? then None
    else if !rs[0].more then Some([rs[0]])
    else
      var rest := AllPages(rs[1..]);
      if rest.None? then None else Some([rs[0]] + rest.value)
  }

  predicate OnPage(pages: seq<Read>, p: string) { exists r <- pages :: r.Page? && p in r.attachments }

  predicate DownloadOnPage(pages: seq<Read>, p: string) { exists r <- pages :: r.Page? && p in r.downloads }

  /** Every read before the deletion came back. */
  predicate ReadsSucceed(w: World) {
    && w.diskAttachments.Some? && w.diskDownloads.Some? && w.conversationAttachments.Some? && w.knownDownloads.Some?
    && AllPages(w.cursorReads).Some? && w.cursorCloses && w.protectedPaths.Some?
  }

  /** A file nothing refers to and that is still there. */
  predicate Orphan(w: World, p: string)
    requires ReadsSucceed(w)
  {
    && p in w.diskAttachments.value && p !in w.conversationAttachments.value
    && !OnPage(AllPages(w.cursorReads).value, p)
    && p !in w.protectedPaths.value && p !in w.vanished
  }

  predicate OrphanDownload(w: World, p: string)
    requires ReadsSucceed(w)
  {
    p in w.diskDownloads.value && p !in w.knownDownloads.value && !DownloadOnPage(AllPages(w.cursorReads).value, p)
  }

  /** A `Set` of paths that is deleted from in place. */
  class PathSet {
    var paths: set<string>

    constructor (listed: seq<string>)
      ensures paths == Elements(listed)
    {
      paths := Elements(listed);
    }

    /** Whether the path was in the set. */
    method Delete(p: string) returns (found: bool)
      modifies this
      ensures found == (p in old(paths)) && paths == old(paths) - {p}
    {
      found := p in paths;
      paths := paths - {p};
    }

    method DeleteAll(known: seq<string>) returns (missing: nat)
      modifies this
      ensures paths == old(paths) - Elements(known) && missing <= |known|
      ensures missing == 0 ==> Elements(known) <= old(paths)
    {
      missing := 0;
      for i := 0 to |known|
        invariant paths == old(paths) - Elements(known[..i]) && missing <= i
        invariant missing == 0 ==> Elements(known[..i]) <= old(paths)
      {
        assert Elements(known[..i + 1]) == Elements(known[..i]) + {known[i]};
        var found := Delete(known[i]);
        if !found { missing := missing + 1; }
      }
      assert known[..|known|] == known;
    }
  }

  /** What the pages refer to. */
  function Referred(pages: seq<Read>): (r: set<string>)
    ensures forall p :: p in r <==> OnPage(pages, p)
  {
    set r <- pages, p | r.Page? && p in r.attachments :: p
  }

  function DownloadsReferred(pages: seq<Read>): (r: set<string>)
    ensures forall p :: p in r <==> DownloadOnPage(pages, p)
  {
    set r <- pages, p | r.Page? && p in r.downloads :: p
  }

  lemma ReferredPlus(pages: seq<Read>, page: Read)
    requires page.Page?
    ensures Referred(pages + [page]) == Referred(pages) + Elements(page.attachments)
    ensures DownloadsReferred(pages + [page]) == DownloadsReferred(pages) + Elements(page.downloads)
  {}

  /** Reading one more page with something still to come. */
  lemma {:induction false} AllPagesFrom(rs: seq<Read>, n: nat)
    requires n < |rs| && forall i :: 0 <= i < n ==> rs[i].Page? && rs[i].more
    ensures rs[n].ReadFails? ==> AllPages(rs).None?
    ensures rs[n].Page? && !rs[n].more ==> AllPages(rs) == Some(rs[..n + 1])
    ensures |rs| == n + 1 && rs[n].Page? && rs[n].more ==> AllPages(rs).None?
  {
    if n > 0 {
      AllPagesFrom(rs[1..], n - 1);
      assert rs[1..][n - 1] == rs[n];
      if rs[n].Page? && !rs[n].more { assert rs[..n + 1] == [rs[0]] + rs[1..][..n]; }
    } else {
      assert rs[..1] == [rs[0]];
    }
  }

  /** The cursor loop; false when a read fails, or the last read has more to come and the loop goes on forever. */
  method ReadPages(rs: seq<Read>, orphanedAttachments: PathSet, orphanedDownloads: PathSet) returns (ok: bool)
    requires orphanedAttachments != orphanedDownloads
    modifies orphanedAttachments, orphanedDownloads
    ensures ok == AllPages(rs).Some?
    ensures ok ==> orphanedAttachments.paths == old(orphanedAttachments.paths) - Referred(AllPages(rs).value)
    ensures ok ==> orphanedDownloads.paths == old(orphanedDownloads.paths) - DownloadsReferred(AllPages(rs).value)
  {
    var n := 0;
    while n < |rs|
      invariant n <= |rs| && forall i :: 0 <= i < n ==> rs[i].Page? && rs[i].more
      invariant orphanedAttachments.paths == old(orphanedAttachments.paths) - Referred(rs[..n])
      invariant orphanedDownloads.paths == old(orphanedDownloads.paths) - DownloadsReferred(rs[..n])
    {
      AllPagesFrom(rs, n);
      if rs[n].ReadFails? { return false; }
      ReferredPlus(rs[..n], rs[n]);
      assert rs[..n + 1] == rs[..n] + [rs[n]];
      var totalMissing := orphanedAttachments.DeleteAll(rs[n].attachments);
      var missing := orphanedDownloads.DeleteAll(rs[n].downloads);
      if !rs[n].more { return true; }
      n := n + 1;
    }
    if n > 0 { AllPagesFrom(rs, n - 1); }
    ok := false;
  }

  /** Orphans that are no longer on disk are left out of the account. */
  method DropVanished(orphaned: PathSet, vanished: set<string>)
    modifies orphaned
    ensures orphaned.paths == old(orphaned.paths) - vanished
  {
    var todo := orphaned.paths;
    while todo != {}
      invariant todo <= old(orphaned.paths)
      invariant orphaned.paths == old(orphaned.paths) - ((old(orphaned.paths) - todo) * vanished)
      decreases todo
    {
      var p :| p in todo;
      if p in vanished {
        var _ := orphaned.Delete(p);
      }
      todo := todo - {p};
    }
  }

  /** `deleteOrphanedAttachments`; an error on the way ends it. */
  method DeleteOrphanedAttachments(
    w: World, orphanedAttachments: PathSet, orphanedDownloads: PathSet) returns (d: Deleted)
    requires orphanedAttachments != orphanedDownloads
    modifies orphanedAttachments, orphanedDownloads
    ensures d.attachments.Some? <==> AllPages(w.cursorReads).Some? && w.cursorCloses && w.protectedPaths.Some?
    ensures
      d.attachments.Some? ==>
        d.attachments.value
        == old(orphanedAttachments.paths) - Referred(AllPages(w.cursorReads).value)
           - Elements(w.protectedPaths.value) - w.vanished
    ensures d.downloads.Some? <==> d.attachments.Some? && w.deletionSucceeds
    ensures
      d.downloads.Some? ==>
        d.downloads.value == old(orphanedDownloads.paths) - DownloadsReferred(AllPages(w.cursorReads).value)
  {
    var ok := ReadPages(w.cursorReads, orphanedAttachments, orphanedDownloads);
    if !ok || !w.cursorCloses || w.protectedPaths.None? { return Nothing; }
    var missing := orphanedAttachments.DeleteAll(w.protectedPaths.value);
    DropVanished(orphanedAttachments, w.vanished);
    d := Deleted(Some(orphanedAttachments.paths), None);
    if !w.deletionSucceeds { return; }
    d := d.(downloads := Some(orphanedDownloads.paths));
  }

  /** `cleanupOrphanedAttachments`: exactly the orphans are deleted, and nothing at all unless every read came back. */
  method CleanupOrphanedAttachments(w: World) returns (d: Deleted)
    ensures d.attachments.Some? <==> ReadsSucceed(w)
    ensures d.attachments.Some? ==> forall p :: p in d.attachments.value <==> Orphan(w, p)
    ensures d.downloads.Some? <==> ReadsSucceed(w) && w.deletionSucceeds
    ensures d.downloads.Some? ==> forall p :: p in d.downloads.value <==> OrphanDownload(w, p)
  {
    if w.diskAttachments.None? || w.diskDownloads.None? { return Nothing; }
    var orphanedAttachments := new PathSet(w.diskAttachments.value);
    var orphanedDownloads := new PathSet(w.diskDownloads.value);
    if w.conversationAttachments.None? { return Nothing; }
    var missingConversationAttachments := orphanedAttachments.DeleteAll(w.conversationAttachments.value);
    if w.knownDownloads.None? { return Nothing; }
    var missing := orphanedDownloads.DeleteAll(w.knownDownloads.value);
    d := DeleteOrphanedAttachments(w, orphanedAttachments, orphanedDownloads);
  }

}
