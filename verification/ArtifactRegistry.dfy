/**
 The staged-upload registry of cul868_flasher/app/ingress.py:45-111, as the object it is. Each method
 is one section under its lock, plus the unlinking that follows; Admission.dfy interleaves them.
 `now` is the monotonic clock in seconds, `identifier` a fresh random token.
 */
module ArtifactRegistry {
  import opened Common
  import opened Operation
  import opened Admission

  /** The directory holding uploads. */
  class Uploads {
    var present: set<Upload>

    constructor ()
      ensures present == {}
    {
      present := {};
    }

    /** `path.unlink(missing_ok=True)`. */
    method Unlink(file: Upload)
      modifies this
      ensures present == old(present) - {file}
    {
      present := present - {file};
    }

    method UnlinkAll(files: set<Upload>)
      modifies this
      ensures present == old(present) - files
    {
      var left := files;
      while left != {}
        invariant left <= files && present == old(present) - (files - left)
        decreases |left|
      {
        var file :| file in left;
        Unlink(file);
        left := left - {file};
      }
    }
  }

  datatype Claim = Missing | Taken | Granted(entry: Staged)

  class StagedArtifacts {
    const uploads: Uploads
    var entries: Registry

    constructor (uploads: Uploads)
      ensures this.uploads == uploads && entries == map[]
    {
      this.uploads, entries := uploads, map[];
    }

    /** `_remove_expired_locked`: exactly the unclaimed entries past their time, with their uploads. */
    method RemoveExpired(now: int)
      modifies this`entries, uploads
      ensures entries == Unexpired(old(entries), now)
      ensures uploads.present == old(uploads.present) - ExpiredFiles(old(entries), now)
    {
      var expired := ExpiredFiles(entries, now);
      entries := Unexpired(entries, now);
      uploads.UnlinkAll(expired);
    }

    /** `stage`: the new upload replaces whatever was staged, unless that is being submitted. */
    method Stage(identifier: Artifact, file: Upload, manual: bool, now: int) returns (ok: bool)
      modifies this`entries, uploads
      ensures ok <==> !AnyClaimed(Unexpired(old(entries), now))
      ensures entries == if ok then map[identifier := Staged(file, manual, now + TTL, false)]
              else Unexpired(old(entries), now)
      ensures uploads.present == old(uploads.present) - if ok then FilesIn(old(entries))
              else ExpiredFiles(old(entries), now)
    {
      ghost var before := entries;
      RemoveExpired(now);
      if exists a :: a in entries && entries[a].claimed {
        return false;
      }
      var replaced := entries;
      entries := map[identifier := Staged(file, manual, now + TTL, false)];
      uploads.UnlinkAll(FilesIn(replaced));
      SweptOrReplaced(before, now);
      ok := true;
    }

    /** `claim`: a live entry nobody claimed, or nothing but the sweep. */
    method Claim(identifier: Artifact, now: int) returns (c: Claim)
      modifies this`entries, uploads
      ensures var swept := Unexpired(old(entries), now);
              && (c.Missing? <==> !(16 <= |identifier| <= 128) || identifier !in swept)
              && (c.Granted? <==> 16 <= |identifier| <= 128 && identifier in swept && !swept[identifier].claimed)
              && (c.Granted? ==> c.entry == swept[identifier].(claimed := true))
              && entries == if c.Granted? then swept[identifier := c.entry]
                            else if 16 <= |identifier| <= 128 then swept else old(entries)
      ensures uploads.present ==
              old(uploads.present) - if 16 <= |identifier| <= 128 then ExpiredFiles(old(entries), now) else {}
    {
      if !(16 <= |identifier| <= 128) {
        return Missing;
      }
      RemoveExpired(now);
      if identifier !in entries {
        return Missing;
      }
      if entries[identifier].claimed {
        return Taken;
      }
      var entry := entries[identifier].(claimed := true);
      entries := entries[identifier := entry];
      c := Granted(entry);
    }

    /** `release_claim`. */
    method ReleaseClaim(identifier: Artifact)
      modifies this`entries
      ensures entries == if identifier in old(entries)
              then old(entries)[identifier := old(entries)[identifier].(claimed := false)] else old(entries)
    {
      if identifier in entries {
        entries := entries[identifier := entries[identifier].(claimed := false)];
      }
    }

    /** `consume`: the upload stays, it belongs to the queue now. */
    method Consume(identifier: Artifact)
      modifies this`entries
      ensures entries == old(entries) - {identifier}
    {
      entries := entries - {identifier};
    }

    /** `close`: every upload still staged is deleted, claimed or not. */
    method Close()
      modifies this`entries, uploads
      ensures entries == map[] && uploads.present == old(uploads.present) - FilesIn(old(entries))
    {
      var all := entries;
      entries := map[];
      uploads.UnlinkAll(FilesIn(all));
    }
  }

  lemma SweptOrReplaced(entries: Registry, now: int)
    ensures FilesIn(entries) == ExpiredFiles(entries, now) + FilesIn(Unexpired(entries, now))
  {
    forall f | f in FilesIn(entries) ensures f in ExpiredFiles(entries, now) + FilesIn(Unexpired(entries, now)) {
      var a :| a in entries && entries[a].file == f;
      assert !Expired(entries[a], now) ==> a in Unexpired(entries, now) && Unexpired(entries, now)[a].file == f;
    }
  }
}
