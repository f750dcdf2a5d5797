/** Create-only publication of one file (`_publish_new_at_validated_parent`,
    `_scrub_then_remove_temporary`, `_is_owned_regular`) when any system call may
    fail: write to a random temporary name, verify, hard-link to the final name,
    remove the temporary. */
module Publisher {
  import opened Wrappers
  import opened Records

  type Inode = nat

  /** How a system call ends: an error may come before or after the effect. */
  datatype Sys = Done | FailedBefore | FailedAfter

  datatype Outcome = Published | RolledBack | NeedsAttention | Rejected(code: string)

  /** The two names of the parent directory that matter, and the file contents. */
  datatype Snapshot = Snapshot(temporary: Option<Inode>, final: Option<Inode>, data: map<Inode, Bytes>)

  predicate Holds(s: Snapshot, name: Option<Inode>, content: Bytes) {
    name.Some? && name.value in s.data && s.data[name.value] == content
  }

  /** What is on disk at any moment, should the process die there: the final name is
      as it was found, or it holds the whole content. */
  predicate NeverPartial(s: Snapshot, found: Snapshot, content: Bytes) {
    if found.final.Some? then
      s.final == found.final && found.final.value in found.data && Holds(s, s.final, found.data[found.final.value])
    else s.final.Some? ==> Holds(s, s.final, content)
  }

  class Directory {
    var temporary: Option<Inode>
    var final: Option<Inode>
    var data: map<Inode, Bytes>
    /** Every state the directory has been in since this publication began. */
    ghost var trace: seq<Snapshot>
    /** Whether some system call but the link has failed, or the parent was found replaced. */
    ghost var troubled: bool

    function Now(): Snapshot
      reads this
    {
      Snapshot(temporary, final, data)
    }

    function Links(i: Inode): nat
      reads this
    {
      (if temporary == Some(i) then 1 else 0) + (if final == Some(i) then 1 else 0)
    }

    ghost predicate Safe(found: Snapshot, content: Bytes)
      reads this
    {
      && (forall s :: s in trace ==> NeverPartial(s, found, content))
      && NeverPartial(Now(), found, content)
    }

    /** The final name has been left alone in every state since `before`. */
    ghost predicate FinalKept(before: seq<Snapshot>, name: Option<Inode>)
      reads this
    {
      final == name && forall s :: s in trace ==> s in before || s.final == name
    }

    /** Only `i` can have been created or written. */
    ghost predicate Others(i: Inode, before: map<Inode, Bytes>)
      reads this
    {
      forall j :: j != i ==> (j in data <==> j in before) && (j in data ==> data[j] == before[j])
    }

    /** Nothing of the data remains under the temporary name. */
    predicate Scrubbed()
      reads this
    {
      temporary.None? || Holds(Now(), temporary, [])
    }

    /** Any system call: the system decides how it ends. */
    method Call() returns (r: Sys)
      modifies this`troubled
      ensures troubled == (old(troubled) || !r.Done?)
    {
      r := *;
      if !r.Done? { troubled := true; }
    }

    /** `_is_owned_regular`: lstat may fail, and then the entry is not ours. */
    method IsOwned(name: Option<Inode>, expected: Inode, links: nat) returns (owned: bool)
      modifies this`troubled
      ensures owned ==> name == Some(expected) && Links(expected) == links && troubled == old(troubled)
      ensures !owned && name == Some(expected) && Links(expected) == links ==> troubled
      ensures old(troubled) ==> troubled
    {
      var r := Call();
      owned := r.Done? && name == Some(expected) && Links(expected) == links;
    }

    method UnlinkTemporary() returns (r: Sys)
      modifies this`troubled, this`temporary, this`trace
      ensures temporary == if r.FailedBefore? then old(temporary) else None
      ensures trace == old(trace) + [Now()] && troubled == (old(troubled) || !r.Done?)
    {
      r := Call();
      if !r.FailedBefore? { temporary := None; }
      trace := trace + [Now()];
    }

    method UnlinkFinal() returns (r: Sys)
      modifies this`troubled, this`final, this`trace
      ensures final == if r.FailedBefore? then old(final) else None
      ensures trace == old(trace) + [Now()] && troubled == (old(troubled) || !r.Done?)
    {
      r := Call();
      if !r.FailedBefore? { final := None; }
      trace := trace + [Now()];
    }

    /** `_scrub_then_remove_temporary`: empty our own one-link temporary, then try to remove it. */
    method ScrubTemporary(expected: Inode, ghost found: Snapshot, ghost content: Bytes) returns (clean: bool)
      requires Safe(found, content) && found.final != Some(expected)
      requires final == Some(expected) ==> temporary == final
      modifies this
      ensures Safe(found, content) && FinalKept(old(trace), old(final))
      ensures old(final) == Some(expected) ==> !clean && temporary == old(temporary) && data == old(data)
      ensures Others(expected, old(data)) && (expected in old(data) ==> expected in data)
      ensures temporary == old(temporary) || temporary.None?
      ensures clean ==> Scrubbed()
      ensures old(troubled) || (old(temporary) == Some(expected) && old(final) != Some(expected) && !clean) ==> troubled
    {
      var stat := IsOwned(temporary, expected, 1);
      if !stat { return false; }
      var open := Call();
      var restat := Call();
      if !open.Done? || !restat.Done? { return false; }
      var truncate := Call();
      if !truncate.FailedBefore? {
        Put(expected, [], found, content);
      }
      var sync := Call();
      var close := Call();
      if !truncate.Done? || !sync.Done? || !close.Done? { return false; }
      var owned := IsOwned(temporary, expected, 1);
      if !owned { return false; }
      var r := UnlinkTemporary();
      return true;
    }

    /** The bytes of inode `i`, still unpublished, become `bytes`. */
    method Put(i: Inode, bytes: Bytes, ghost found: Snapshot, ghost content: Bytes)
      requires Safe(found, content) && final != Some(i) && found.final != Some(i)
      modifies this`data, this`trace
      ensures Safe(found, content) && data == old(data)[i := bytes]
      ensures FinalKept(old(trace), final)
    {
      data := data[i := bytes];
      trace := trace + [Now()];
    }

    /** Write the temporary, in as many pieces as the system likes, and sync it. */
    method WriteAll(content: Bytes, spare: Inode, ghost found: Snapshot) returns (ok: bool)
      requires Safe(found, content) && temporary == Some(spare) && Holds(Now(), temporary, [])
      requires final != Some(spare) && found.final != Some(spare)
      modifies this
      ensures Safe(found, content) && FinalKept(old(trace), old(final)) && Others(spare, old(data))
      ensures temporary == Some(spare) && (ok ==> Holds(Now(), temporary, content)) && spare in data
      ensures if ok then troubled == old(troubled) else troubled
    {
      var offset := 0;
      while offset < |content|
        invariant 0 <= offset <= |content| && temporary == Some(spare) && final == old(final)
        invariant spare in data && data[spare] == content[..offset] && Safe(found, content)
        invariant FinalKept(old(trace), old(final)) && Others(spare, old(data)) && troubled == old(troubled)
      {
        var written: nat :| written <= |content| - offset;
        var r := Call();
        if r.FailedBefore? || written == 0 { troubled := true; return false; }
        Put(spare, content[..offset + written], found, content);
        if !r.Done? { return false; }
        offset := offset + written;
      }
      assert content[..offset] == content;
      var sync := Call();
      var close := Call();
      ok := sync.Done? && close.Done?;
    }

    /** Create the temporary and write it. */
    method Stage(content: Bytes, spare: Inode, ghost found: Snapshot) returns (ok: bool, identity: Option<Inode>)
      requires Safe(found, content) && temporary.None? && spare !in data && final != Some(spare) && found == Now()
      modifies this
      ensures Safe(found, content) && FinalKept(old(trace), old(final)) && Others(spare, old(data))
      ensures ok ==> identity == Some(spare) && Holds(Now(), temporary, content)
      ensures identity.Some? ==> identity == Some(spare) && temporary == identity
      ensures identity.None? ==> Scrubbed()
      ensures !ok ==> troubled
      ensures ok ==> troubled == old(troubled)
    {
      var open := Call();
      if open.FailedBefore? { return false, None; }
      temporary := Some(spare);
      Put(spare, [], found, content);
      var stat := Call();
      if !open.Done? || !stat.Done? { return false, None; }
      identity := Some(spare);
      ok := WriteAll(content, spare, found);
    }

    /** Stat, reopen and read back the temporary, then look at the parent once more. */
    method VerifyStaged(content: Bytes, identity: Inode) returns (ok: bool, code: string)
      requires temporary == Some(identity) && final != Some(identity) && identity in data
      modifies this`troubled
      ensures ok ==> data[identity] == content && troubled == old(troubled)
      ensures !ok && data[identity] == content ==> troubled
      ensures old(troubled) ==> troubled
      ensures code != "PRECOMMIT_CLEANUP_FAILED"
    {
      code := "OUTPUT_VERIFY_FAILED";
      var owned := IsOwned(temporary, identity, 1);
      if !owned { return false, code; }
      var read: Bytes := [];
      while |read| < |data[identity]| && |read| <= |content|
        invariant |read| <= |data[identity]| && read == data[identity][..|read|] && troubled == old(troubled)
      {
        var r := Call();
        if !r.Done? { return false, "OUTPUT_PUBLISH_FAILED"; }
        var n: nat :| 0 < n <= |data[identity]| - |read|;
        var chunk := if n <= 65536 then n else 65536;
        read := read + data[identity][|read|..|read| + chunk];
      }
      if read != content { return false, code; }
      var parent: bool := *;
      if !parent { troubled := true; return false, "OUTPUT_PARENT_CHANGED"; }
      return true, "";
    }

    /** The final name is in place although an ordinary error is raised: both names hold the data. */
    ghost predicate LeftBehind(found: Option<Inode>, spare: Inode, content: Bytes)
      reads this
    {
      found.None? && final == Some(spare) && temporary == final && Holds(Now(), final, content)
    }

    /** The publication. Its outcome says what became of the final name. `linking` is how the
        system ends the link call, should it come to that; `unnoticed` says that the call was
        made on a free name, took effect and reported an error. */
    method Publish(content: Bytes, spare: Inode, linking: Sys) returns (outcome: Outcome, ghost unnoticed: bool)
      requires temporary.None? && trace == [] && spare !in data && final != Some(spare) && !troubled
      requires final.Some? ==> final.value in data
      modifies this
      ensures forall s :: s in trace ==> NeverPartial(s, old(Now()), content)
      ensures NeverPartial(Now(), old(Now()), content)
      ensures outcome.Published? ==>
                old(final).None? && final == Some(spare) && data[spare] == content && temporary.None? && Links(spare) == 1
      ensures outcome.RolledBack? ==> final.None? && Scrubbed()
      ensures unnoticed ==> linking.FailedAfter? && outcome == Rejected("PRECOMMIT_CLEANUP_FAILED")
      ensures outcome.Rejected? ==>
                if unnoticed then LeftBehind(old(final), spare, content) else FinalKept([], old(final))
      ensures outcome.Rejected? && outcome.code != "PRECOMMIT_CLEANUP_FAILED" ==> Scrubbed()
      ensures outcome.NeedsAttention? ==> old(final).None?
      ensures !troubled ==>
                && unnoticed == (old(final).None? && linking.FailedAfter?)
                && outcome == if old(final).Some? || linking.FailedBefore? then Rejected("OUTPUT_PUBLISH_FAILED")
                              else if linking.Done? then Published else Rejected("PRECOMMIT_CLEANUP_FAILED")
      ensures forall i :: i in old(data) ==> i in data && data[i] == old(data)[i]
    {
      unnoticed := false;
      ghost var found := Now();
      var staged, identity := Stage(content, spare, found);
      var code := "OUTPUT_PUBLISH_FAILED";
      if staged {
        staged, code := VerifyStaged(content, spare);
      }
      if staged {
        var linked := LinkFinal(spare, linking, found, content);
        if linked {
          outcome := Finish(content, spare, found);
          return;
        }
        unnoticed := found.final.None? && linking.FailedAfter?;
        code := "OUTPUT_PUBLISH_FAILED";
      }
      if identity.Some? {
        var clean := ScrubTemporary(spare, found, content);
        if !clean { code := "PRECOMMIT_CLEANUP_FAILED"; }
      }
      outcome := Rejected(code);
    }

    /** `os.link`, which never replaces an existing name and may take effect and still fail. */
    method LinkFinal(identity: Inode, linking: Sys, ghost found: Snapshot, ghost content: Bytes) returns (linked: bool)
      requires Safe(found, content) && found.final == final && temporary == Some(identity) && Holds(Now(), temporary, content)
      modifies this`final, this`trace
      ensures Safe(found, content)
      ensures linked == (old(final).None? && linking.Done?)
      ensures final == if old(final).None? && !linking.FailedBefore? then Some(identity) else old(final)
      ensures final == old(final) ==> trace == old(trace)
    {
      if final.Some? { return false; }
      if !linking.FailedBefore? {
        final := Some(identity);
        trace := trace + [Now()];
      }
      linked := linking.Done?;
    }

    /** After the link: drop the temporary and confirm the final name, or take it back. */
    method Finish(content: Bytes, identity: Inode, ghost found: Snapshot) returns (outcome: Outcome)
      requires Safe(found, content) && found.final.None? && final == Some(identity) && temporary == final
      requires identity in data && data[identity] == content
      modifies this
      ensures Safe(found, content) && Others(identity, old(data)) && identity in data
      ensures outcome.Published? ==> final == Some(identity) && data[identity] == content && temporary.None?
      ensures outcome.RolledBack? ==> final.None? && Scrubbed()
      ensures !outcome.Rejected?
      ensures !outcome.Published? ==> troubled
    {
      var one := IsOwned(temporary, identity, 2);
      var two := IsOwned(final, identity, 2);
      if !one || !two { return NeedsAttention; }
      var r := UnlinkTemporary();
      if !r.Done? {
        one := IsOwned(temporary, identity, 2);
        two := IsOwned(final, identity, 2);
        if !one || !two { return NeedsAttention; }
        var again := IsOwned(final, identity, 2);
        if !again { return NeedsAttention; }
        var u := UnlinkFinal();
        if !u.Done? { return NeedsAttention; }
        var clean := ScrubTemporary(identity, found, content);
        return if clean then RolledBack else NeedsAttention;
      }
      var stat := Call();
      if !stat.Done? { return NeedsAttention; }
      var read := Call();
      if !read.Done? || data[identity] != content {
        var owned := IsOwned(final, identity, 1);
        if !owned { return NeedsAttention; }
        var u := UnlinkFinal();
        return if u.Done? then RolledBack else NeedsAttention;
      }
      return Published;
    }
  }
}
