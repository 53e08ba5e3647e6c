/** backend/utils/file_cleanup.py: the retention sweeper. Time is whole seconds; the file
    system is a map from path to entry, with two fixed sets standing for the operations that
    raise: `unlink` on a path in `locked`, `iterdir` on a directory in `unreadable`. */
module FileCleanup {
  import opened Paths

  datatype Entry = Entry(isFile: bool, mtime: int)

  type Files = map<string, Entry>

  class FileSystem {
    var files: Files
    const locked: set<string>
    const unreadable: set<string>

    constructor (files: Files, locked: set<string>, unreadable: set<string>)
      ensures this.files == files && this.locked == locked && this.unreadable == unreadable
    {
      this.files := files;
      this.locked := locked;
      this.unreadable := unreadable;
    }
  }

  /** `directory.exists()` and `directory.iterdir()` succeeds. */
  predicate Listable(files: Files, unreadable: set<string>, d: string) {
    d in files && !files[d].isFile && d !in unreadable
  }

  /** The files one pass over directory `d` removes: regular files directly in `d` modified
      strictly before `cutoff`, except those whose unlink fails. */
  function Cleared(files: Files, locked: set<string>, unreadable: set<string>, d: string,
                   cutoff: int): (gone: set<string>)
    ensures forall p :: p in gone ==> p in files && files[p].isFile && p !in locked
  {
    if Listable(files, unreadable, d) then
      set p | p in files && DirectlyIn(p, d) && files[p].isFile && files[p].mtime < cutoff
                && p !in locked
    else {}
  }

  /** What a sweep over `dirs`, in order, removes from `files`. */
  function Swept(files: Files, locked: set<string>, unreadable: set<string>, dirs: seq<string>,
                 cutoff: int): (gone: set<string>)
    ensures forall p :: p in gone ==> p in files && files[p].isFile && p !in locked
    decreases |dirs|
  {
    if |dirs| == 0 then {}
    else Swept(files, locked, unreadable, dirs[..|dirs| - 1], cutoff)
         + Cleared(files, locked, unreadable, dirs[|dirs| - 1], cutoff)
  }

  /** A file is swept exactly when it is a regular file directly inside one of the listed,
      readable directories, older than the cutoff, and not locked. */
  lemma {:induction false} SweptExactly(files: Files, locked: set<string>,
                                        unreadable: set<string>, dirs: seq<string>,
                                        cutoff: int, p: string)
    ensures p in Swept(files, locked, unreadable, dirs, cutoff) <==>
      exists k :: 0 <= k < |dirs| && Listable(files, unreadable, dirs[k])
                  && DirectlyIn(p, dirs[k]) && p in files && files[p].isFile
                  && files[p].mtime < cutoff && p !in locked
    decreases |dirs|
  {
    if |dirs| > 0 {
      var init := dirs[..|dirs| - 1];
      SweptExactly(files, locked, unreadable, init, cutoff, p);
      if p in Swept(files, locked, unreadable, init, cutoff) {
        var k :| 0 <= k < |init| && Listable(files, unreadable, init[k])
                 && DirectlyIn(p, init[k]) && p in files && files[p].isFile
                 && files[p].mtime < cutoff && p !in locked;
        assert dirs[k] == init[k];
      }
      if exists k :: 0 <= k < |dirs| && Listable(files, unreadable, dirs[k])
                     && DirectlyIn(p, dirs[k]) && p in files && files[p].isFile
                     && files[p].mtime < cutoff && p !in locked {
        var k :| 0 <= k < |dirs| && Listable(files, unreadable, dirs[k])
                 && DirectlyIn(p, dirs[k]) && p in files && files[p].isFile
                 && files[p].mtime < cutoff && p !in locked;
        if k < |dirs| - 1 {
          assert init[k] == dirs[k];
        }
      }
    }
  }

  /** Files modified at or after the cutoff, directories, and anything outside the listed
      directories are left alone. */
  lemma SweepSpares(files: Files, locked: set<string>, unreadable: set<string>,
                    dirs: seq<string>, cutoff: int, p: string)
    requires p in files
    requires !files[p].isFile || files[p].mtime >= cutoff || p in locked
             || (forall k :: 0 <= k < |dirs| ==> !DirectlyIn(p, dirs[k]))
    ensures p !in Swept(files, locked, unreadable, dirs, cutoff)
  {
    SweptExactly(files, locked, unreadable, dirs, cutoff, p);
  }

  /** Removing regular files changes no directory's listability, and a later pass over `d`
      finds exactly what it would have found before, less what was already removed. */
  lemma ClearedAfterRemoval(files: Files, locked: set<string>, unreadable: set<string>,
                            gone: set<string>, d: string, cutoff: int)
    requires forall p :: p in gone ==> p in files && files[p].isFile
    ensures Cleared(files - gone, locked, unreadable, d, cutoff)
            == Cleared(files, locked, unreadable, d, cutoff) - gone
  {
  }

  lemma RemoveTwice(files: Files, a: set<string>, b: set<string>)
    ensures (files - a) - b == files - (a + b)
  {
  }

  /** Removing a path forgets whatever was just written to it. */
  lemma RemoveWritten(files: Files, p: string, entry: Entry)
    ensures files[p := entry] - {p} == files - {p}
  {
    var l, r := files[p := entry] - {p}, files - {p};
    assert l.Keys == r.Keys;
    forall q | q in l.Keys ensures l[q] == r[q] {}
  }

  /** Membership in `Cleared` for a directory that can be listed. */
  lemma InCleared(files: Files, locked: set<string>, unreadable: set<string>, d: string,
                  cutoff: int, p: string)
    requires Listable(files, unreadable, d) && p in files && DirectlyIn(p, d)
    ensures p in Cleared(files, locked, unreadable, d, cutoff)
            <==> files[p].isFile && files[p].mtime < cutoff && p !in locked
  {
  }

  /** Taking `p` off the listing adds it to what was handled of `target`, once. */
  lemma ListingStep(target: set<string>, listing: set<string>, p: string)
    requires p in listing
    ensures p in target ==>
      target - (listing - {p}) == (target - listing) + {p} && p !in target - listing
      && |target - (listing - {p})| == |target - listing| + 1
    ensures p !in target ==> target - (listing - {p}) == target - listing
  {
  }

  lemma RemoveNothing(files: Files)
    ensures files - {} == files
  {
  }

  lemma DisjointUnionSize(a: set<string>, b: set<string>)
    ensures |a + (b - a)| == |a| + |b - a|
    ensures a + (b - a) == a + b
  {
  }

  /** What the pass over `dirs[i]` does, given what the passes before it removed. */
  lemma SweepStep(files: Files, locked: set<string>, unreadable: set<string>, dirs: seq<string>,
                  i: nat, cutoff: int)
    requires i < |dirs|
    ensures var done := Swept(files, locked, unreadable, dirs[..i], cutoff);
      var next := Swept(files, locked, unreadable, dirs[..i + 1], cutoff);
      var added := Cleared(files - done, locked, unreadable, dirs[i], cutoff);
      && (files - done) - added == files - next
      && |next| == |done| + |added|
  {
    var done := Swept(files, locked, unreadable, dirs[..i], cutoff);
    var fromStart := Cleared(files, locked, unreadable, dirs[i], cutoff);
    assert dirs[..i + 1][..i] == dirs[..i];
    assert Swept(files, locked, unreadable, dirs[..i + 1], cutoff) == done + fromStart;
    ClearedAfterRemoval(files, locked, unreadable, done, dirs[i], cutoff);
    RemoveTwice(files, done, fromStart - done);
    DisjointUnionSize(done, fromStart);
  }

  /** `delete_file` removes `p` exactly when it is an existing regular file whose unlink
      succeeds. */
  predicate Deletes(files: Files, locked: set<string>, p: string) {
    p in files && files[p].isFile && p !in locked
  }

  /** The file system after `delete_file(p)`. */
  function AfterDelete(files: Files, locked: set<string>, p: string): (after: Files)
    ensures Deletes(files, locked, p) ==> p !in after
    ensures forall q :: q != p ==> (q in after <==> q in files)
  {
    if Deletes(files, locked, p) then files - {p} else files
  }

  /** A second `delete_file` of the same path deletes nothing and changes nothing. */
  lemma DeleteIdempotent(files: Files, locked: set<string>, p: string)
    ensures !Deletes(AfterDelete(files, locked, p), locked, p)
    ensures AfterDelete(AfterDelete(files, locked, p), locked, p) == AfterDelete(files, locked, p)
  {
  }

  /** `get_file_age_seconds`: 0 for a missing path, else the seconds since it was modified. */
  function FileAge(files: Files, p: string, now: int): (age: int)
    ensures p !in files ==> age == 0
    ensures p in files ==> files[p].mtime + age == now
  {
    if p !in files then 0 else now - files[p].mtime
  }

  /** `get_time_until_deletion`: the retention left, never below zero. */
  function TimeUntilDeletion(files: Files, retention: int, p: string, now: int): (left: nat)
    ensures left == 0 || left == retention - FileAge(files, p, now)
    ensures left >= retention - FileAge(files, p, now)
    ensures p !in files ==> left == (if retention > 0 then retention else 0)
  {
    var remaining := retention - FileAge(files, p, now);
    if remaining > 0 then remaining else 0
  }

  /** A file that still shows time left survives a sweep made at that moment; so a swept file
      always showed zero. */
  lemma TimeLeftMeansKept(files: Files, locked: set<string>, unreadable: set<string>,
                          dirs: seq<string>, retention: int, p: string, now: int)
    requires TimeUntilDeletion(files, retention, p, now) > 0
    ensures p !in Swept(files, locked, unreadable, dirs, now - retention)
  {
    if p in files {
      SweepSpares(files, locked, unreadable, dirs, now - retention, p);
    }
  }

  class FileCleanupManager {
    const directories: seq<string>
    const retentionSeconds: int

    constructor (directories: seq<string>, retentionSeconds: int)
      ensures this.directories == directories && this.retentionSeconds == retentionSeconds
    {
      this.directories := directories;
      this.retentionSeconds := retentionSeconds;
    }

    /** One pass of `cleanup_old_files` over directory `d`: skipped when it does not exist,
        abandoned when it cannot be listed, otherwise each listed regular file older than the
        cutoff is unlinked, a failing unlink being logged and passed over. */
    method SweepDirectory(fs: FileSystem, d: string, cutoff: int) returns (deleted: nat)
      modifies fs
      ensures var gone := Cleared(old(fs.files), fs.locked, fs.unreadable, d, cutoff);
        fs.files == old(fs.files) - gone && deleted == |gone|
    {
      deleted := 0;
      if d in fs.files && !fs.files[d].isFile && d !in fs.unreadable {
        ghost var before := fs.files;
        ghost var target := Cleared(before, fs.locked, fs.unreadable, d, cutoff);
        var listing := set p | p in fs.files && DirectlyIn(p, d);
        assert target - listing == {};
        RemoveNothing(before);
        while listing != {}
          invariant listing <= set p | p in before && DirectlyIn(p, d)
          invariant fs.files == before - (target - listing)
          invariant deleted == |target - listing|
          decreases |listing|
        {
          var p :| p in listing;
          assert p in fs.files && fs.files[p] == before[p];
          InCleared(before, fs.locked, fs.unreadable, d, cutoff, p);
          ListingStep(target, listing, p);
          if fs.files[p].isFile && fs.files[p].mtime < cutoff && p !in fs.locked {
            RemoveTwice(before, target - listing, {p});
            fs.files := fs.files - {p};
            deleted := deleted + 1;
          }
          listing := listing - {p};
        }
        assert target - listing == target;
      }
    }

    /** `cleanup_old_files` at time `now`: one pass per directory, in order; failures are
        skipped and the sweep goes on. */
    method CleanupOldFiles(fs: FileSystem, now: int) returns (totalDeleted: nat)
      modifies fs
      ensures var gone := Swept(old(fs.files), fs.locked, fs.unreadable, directories,
                                now - retentionSeconds);
        fs.files == old(fs.files) - gone && totalDeleted == |gone|
    {
      var cutoff := now - retentionSeconds;
      ghost var files0 := fs.files;
      totalDeleted := 0;
      var i := 0;
      RemoveNothing(files0);
      while i < |directories|
        invariant 0 <= i <= |directories|
        invariant fs.files == files0 - Swept(files0, fs.locked, fs.unreadable, directories[..i], cutoff)
        invariant totalDeleted == |Swept(files0, fs.locked, fs.unreadable, directories[..i], cutoff)|
      {
        SweepStep(files0, fs.locked, fs.unreadable, directories, i, cutoff);
        var deleted := SweepDirectory(fs, directories[i], cutoff);
        totalDeleted := totalDeleted + deleted;
        i := i + 1;
      }
      assert directories[..i] == directories;
    }

    /** `delete_file`. */
    method DeleteFile(fs: FileSystem, p: string) returns (deleted: bool)
      modifies fs
      ensures deleted == Deletes(old(fs.files), fs.locked, p)
      ensures fs.files == AfterDelete(old(fs.files), fs.locked, p)
    {
      if p in fs.files && fs.files[p].isFile {
        if p in fs.locked {
          deleted := false;
        } else {
          fs.files := fs.files - {p};
          deleted := true;
        }
      } else {
        deleted := false;
      }
    }

    function GetFileAgeSeconds(fs: FileSystem, p: string, now: int): (age: int)
      reads fs
      ensures age == FileAge(fs.files, p, now)
    {
      if p !in fs.files then 0 else now - fs.files[p].mtime
    }

    function GetTimeUntilDeletion(fs: FileSystem, p: string, now: int): (left: nat)
      reads fs
      ensures left == TimeUntilDeletion(fs.files, retentionSeconds, p, now)
    {
      var remaining := retentionSeconds - GetFileAgeSeconds(fs, p, now);
      if remaining > 0 then remaining else 0
    }
  }
}
