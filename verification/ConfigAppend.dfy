/**
 Appending one profile block to the AWS configuration file under an exclusive lock.

 Bytes are characters. Reads and writes may be short, and every file operation may fail; a
 failed operation leaves the file as it was. Nobody else writes while the lock is held.
 */
module ConfigAppend {
  type Bytes = string

  const MAX_CONFIG_BYTES := 262_144
  const READ_SIZE := 65_536

  datatype AppendOutcome =
    | Appended
    | Refused(reason: AppendReason, localProfileChanged: bool)

  datatype AppendReason =
    | LocalProfileAliasReverifyFailed
    | LocalPathForbidden
    | AwsConfigUnavailable
    | AwsConfigProtectionInvalid
    | AwsConfigChangedDuringBootstrap

  // One open descriptor in append mode.
  class ConfigFile {
    var bytes: Bytes
    var position: nat
    ghost var history: seq<Bytes>   // every content the file has had, oldest first

    constructor (bytes: Bytes)
      ensures this.bytes == bytes && history == [bytes]
    {
      this.bytes, position, history := bytes, 0, [bytes];
    }

    method SeekStart() returns (ok: bool)
      modifies this`position
      ensures ok ==> position == 0
    {
      ok := *;
      if ok {
        position := 0;
      }
    }

    // At most limit bytes from the current position; nothing only at the end of the file.
    method Read(limit: nat) returns (ok: bool, chunk: Bytes)
      requires limit > 0
      modifies this`position
      ensures ok ==> |chunk| <= limit && position == old(position) + |chunk|
      ensures ok && chunk != [] ==> position <= |bytes| && chunk == bytes[old(position)..position]
      ensures ok && chunk == [] ==> old(position) >= |bytes|
    {
      ok := *;
      if !ok || position >= |bytes| {
        return ok, [];
      }
      var count: nat := *;
      var most := if limit <= |bytes| - position then limit else |bytes| - position;
      if !(1 <= count <= most) {
        count := most;
      }
      chunk := bytes[position..position + count];
      position := position + count;
    }

    // Appends a prefix of the data and reports its length; nothing is written on failure.
    method Write(data: Bytes) returns (ok: bool, count: nat)
      modifies this
      ensures ok ==> count <= |data| && bytes == old(bytes) + data[..count] && history == old(history) + [bytes]
      ensures !ok ==> bytes == old(bytes) && history == old(history)
    {
      ok, count := *, *;
      if !ok {
        return;
      }
      if count > |data| {
        count := |data|;
      }
      bytes := bytes + data[..count];
      position := |bytes|;
      history := history + [bytes];
    }

    method Sync() returns (ok: bool)
    {
      ok := *;
    }

    method Truncate(length: nat) returns (ok: bool)
      requires length <= |bytes|
      modifies this`bytes, this`history
      ensures ok ==> bytes == old(bytes)[..length] && history == old(history) + [bytes]
      ensures !ok ==> bytes == old(bytes) && history == old(history)
    {
      ok := *;
      if ok {
        bytes := bytes[..length];
        history := history + [bytes];
      }
    }

    // Read from the start, at most one byte more than a configuration may have.
    method ReadBounded() returns (ok: bool, content: Bytes)
      modifies this`position
      ensures ok ==> content == if |bytes| <= MAX_CONFIG_BYTES then bytes else bytes[..MAX_CONFIG_BYTES + 1]
    {
      ok := SeekStart();
      content := [];
      var remaining := MAX_CONFIG_BYTES + 1;
      while ok && remaining > 0
        invariant ok ==> 0 <= remaining == MAX_CONFIG_BYTES + 1 - |content|
        invariant ok ==> position == |content| <= |bytes| && content == bytes[..|content|]
        decreases ok, remaining
      {
        var chunk: Bytes;
        ok, chunk := Read(if READ_SIZE < remaining then READ_SIZE else remaining);
        if ok {
          if chunk == [] {
            return;
          }
          content := content + chunk;
          remaining := remaining - |chunk|;
        }
      }
    }

    // Read from the start until the end, or until more than a configuration may have was seen.
    method ReadPastLimit() returns (ok: bool, content: Bytes)
      modifies this`position
      ensures ok ==> content <= bytes && (content == bytes || |content| > MAX_CONFIG_BYTES)
    {
      ok := SeekStart();
      content := [];
      while ok && |content| <= MAX_CONFIG_BYTES
        invariant ok ==> position == |content| <= |bytes| && content == bytes[..|content|]
        decreases ok, MAX_CONFIG_BYTES + 1 - |content|
      {
        var chunk: Bytes;
        ok, chunk := Read(READ_SIZE);
        if ok {
          if chunk == [] {
            return;
          }
          content := content + chunk;
        }
      }
    }

    // Every content since the file had a history of the given length lies between the two.
    ghost predicate HistoryBetween(length: nat, original: Bytes, updated: Bytes)
      reads this
    {
      forall i | length <= i < |history| :: original <= history[i] <= updated
    }

    // Write the whole suffix, piece by piece.
    method WriteAll(original: Bytes, suffix: Bytes) returns (ok: bool, written: nat)
      requires bytes == original
      modifies this
      ensures written <= |suffix| && bytes == original + suffix[..written]
      ensures ok ==> written == |suffix|
      ensures |history| >= |old(history)| && history[..|old(history)|] == old(history)
      ensures HistoryBetween(|old(history)|, original, original + suffix)
    {
      written := 0;
      while written < |suffix|
        invariant written <= |suffix| && bytes == original + suffix[..written]
        invariant |history| >= |old(history)| && history[..|old(history)|] == old(history)
        invariant HistoryBetween(|old(history)|, original, original + suffix)
      {
        var count: nat;
        ok, count := Write(suffix[written..]);
        if !ok || count == 0 {
          if ok {
            assert bytes == original + suffix[..written];
          }
          return false, written;
        }
        assert suffix[..written] + suffix[written..][..count] == suffix[..written + count];
        assert bytes == original + suffix[..written + count];
        assert bytes <= original + suffix;
        written := written + count;
      }
      ok := Sync();
    }

    // Undo a partial append, but only when the file holds exactly what was appended.
    method RollBack(original: Bytes, written: Bytes) returns (read: bool, restored: bool)
      requires |original + written| <= MAX_CONFIG_BYTES
      modifies this
      ensures restored ==> bytes == original
      ensures bytes == old(bytes) || (old(bytes) == original + written && bytes == original)
      ensures history == old(history) || history == old(history) + [bytes]
    {
      restored := false;
      var observed: Bytes;
      read, observed := ReadPastLimit();
      if read && observed == original + written {
        var cut := Truncate(|original|);
        if cut {
          restored := Sync();
        }
      }
    }

    /**
     Append the suffix of updated to a file that still holds original.

     Success means the file equals updated. A refusal that does not report a changed profile
     left the file byte for byte as it was. At every moment, and so after an interruption at
     any point, the file is the original or a piece of the update on top of it.
     */
    method AppendAlias(original: Bytes, updated: Bytes) returns (outcome: AppendOutcome)
      modifies this
      ensures outcome.Appended? ==> old(bytes) == original && bytes == updated && original < updated
      ensures outcome.Refused? && !outcome.localProfileChanged ==> bytes == old(bytes)
      ensures bytes == old(bytes) || (old(bytes) == original < bytes <= updated)
      ensures outcome.Refused? && outcome.localProfileChanged ==> old(bytes) == original < updated
      ensures |history| >= |old(history)| && history[..|old(history)|] == old(history)
      ensures |history| > |old(history)| ==>
        old(bytes) == original && HistoryBetween(|old(history)|, original, updated)
    {
      if !(original < updated) || |updated| > MAX_CONFIG_BYTES {
        return Refused(LocalProfileAliasReverifyFailed, false);
      }
      var suffix := updated[|original|..];
      assert original + suffix == updated;
      var pathAllowed: bool, descriptorOpen: bool, locked: bool, protected: bool := *, *, *, *;
      if !pathAllowed {
        return Refused(LocalPathForbidden, false);
      }
      if !descriptorOpen {
        return Refused(AwsConfigUnavailable, false);
      }
      if !locked {
        return Refused(LocalProfileAliasReverifyFailed, false);
      }
      if !protected || |bytes| > MAX_CONFIG_BYTES {
        return Refused(AwsConfigProtectionInvalid, false);
      }
      var read, content := ReadBounded();
      if !read {
        return Refused(LocalProfileAliasReverifyFailed, false);
      }
      if content != original {
        return Refused(AwsConfigChangedDuringBootstrap, false);
      }
      var complete, written := WriteAll(original, suffix);
      assert suffix[..written] <= suffix;
      if !complete {
        var changed := written > 0;
        var seen, restored := RollBack(original, suffix[..written]);
        return Refused(LocalProfileAliasReverifyFailed, changed && !(seen && restored));
      }
      var verified, observed := ReadPastLimit();
      if !verified {
        return Refused(LocalProfileAliasReverifyFailed, true);
      }
      if observed != updated {
        return Refused(AwsConfigChangedDuringBootstrap, true);
      }
      return Appended;
    }
  }
}
