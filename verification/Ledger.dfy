/** The event ledger of one operation: its grammar (`_validate_chain`), the
    directory reader (`_read_events`) and what tampering with either can achieve. */
module Ledger {
  import opened Wrappers
  import opened Records

  // ---------- What a prefix of the ledger has established ----------

  function ManifestOf(h: seq<Event>): (m: Option<Event>)
    ensures m.Some? ==> m.value in h && m.value.payload.body.Manifest?
  {
    if h == [] then None
    else if h[|h|-1].payload.body.Manifest? then Some(h[|h|-1])
    else ManifestOf(h[..|h|-1])
  }

  function LatestPost(h: seq<Event>): (p: Option<Event>)
    ensures p.Some? ==> p.value in h && p.value.payload.body.Post?
  {
    if h == [] then None
    else if h[|h|-1].payload.body.Post? then Some(h[|h|-1])
    else LatestPost(h[..|h|-1])
  }

  /** An attention record that no later recovery has reset. */
  predicate AttentionPending(h: seq<Event>) {
    h != [] &&
    var last := h[|h|-1].payload.body;
    last.Attention? || (!last.Recovery? && AttentionPending(h[..|h|-1]))
  }

  predicate HasPreflight(h: seq<Event>) { exists e :: e in h && e.payload.body.Preflight? }
  predicate HasIntent(h: seq<Event>) { exists e :: e in h && e.payload.body.Intent? }
  predicate HasDispatch(h: seq<Event>) { exists e :: e in h && e.payload.body.Dispatch? }
  predicate Terminated(h: seq<Event>) { exists e :: e in h && e.payload.body.Receipt? }

  // ---------- The grammar ----------

  function LastHash(h: seq<Event>, auth: Authorization): Digest {
    if h == [] then auth.hash else h[|h|-1].hash
  }

  predicate Linked(h: seq<Event>, p: Payload, auth: Authorization) {
    && p.sequence == |h| + 1
    && p.operation == auth.operation
    && p.authorization == auth.hash
    && p.previous == LastHash(h, auth)
    && p.action == auth.action
    && !Terminated(h)
  }

  predicate RecoveryOk(h: seq<Event>, b: Body, auth: Authorization)
    requires b.Recovery?
  {
    && HasPreflight(h) && !HasIntent(h) && !HasDispatch(h) && LatestPost(h).None?
    && b.observed == auth.current
    && var m := ManifestOf(h);
       match b.backupState
       case Absent => m.None? && b.recoverySha.None? && b.recoverySize.None? && b.recoveryMode.None?
       case ExactUnmanifested =>
         && m.None? && b.recoverySha == Some(auth.current.sha)
         && b.recoverySize == Some(auth.current.size) && b.recoveryMode.Some?
       case ExactManifested =>
         && m.Some? && b.recoverySha == Some(m.value.payload.body.backupSha)
         && b.recoverySize == Some(m.value.payload.body.backupSize)
         && b.recoveryMode == Some(m.value.payload.body.backupMode)
  }

  predicate DispatchOk(h: seq<Event>, b: Body, auth: Authorization)
    requires b.Dispatch?
  {
    && HasIntent(h) && !HasDispatch(h) && !AttentionPending(h) && LatestPost(h).None?
    && b.temporary.mode == auth.desiredMode && b.targetMode == auth.current.mode
    && b.temporary.sha == auth.desiredSha && b.temporary.size == auth.desiredSize
    && b.targetDevice == auth.current.device && b.targetInode == auth.current.inode
    && b.parentDevice == auth.parentDevice && b.parentInode == auth.parentInode
  }

  /** A post observation shows either the authorized image or the authorized
      starting image; without a dispatch or a pending attention only the latter,
      and then it must be what the manifest backed up. */
  predicate PostOk(h: seq<Event>, b: Body, auth: Authorization)
    requires b.Post?
  {
    && HasIntent(h) && b.expectedMode == auth.desiredMode
    && (if b.expectedMatch
        then b.observed.sha == auth.desiredSha && b.observed.size == auth.desiredSize
             && b.observed.mode == auth.desiredMode
        else b.observed.sha == auth.current.sha && b.observed.size == auth.current.size
             && b.observed.mode == auth.current.mode)
    && (!HasDispatch(h) && !AttentionPending(h) ==>
          && !b.expectedMatch
          && var m := ManifestOf(h);
             m.Some? && b.observed.sha == m.value.payload.body.backupSha
             && b.observed.size == m.value.payload.body.backupSize)
  }

  predicate ReceiptOk(h: seq<Event>, b: Body, auth: Authorization)
    requires b.Receipt?
  {
    && ManifestOf(h).Some? && HasIntent(h) && LatestPost(h).Some?
    && ReceiptMatches(b, auth, ManifestOf(h).value, LatestPost(h).value, HasDispatch(h))
  }

  predicate ReceiptMatches(b: Body, auth: Authorization, m: Event, p: Event, dispatched: bool)
    requires b.Receipt? && m.payload.body.Manifest? && p.payload.body.Post?
  {
    var backup, post := m.payload.body, p.payload.body;
    && b.manifestHash == m.hash && b.postHash == p.hash
    && b.beforeSha == backup.backupSha && b.beforeSize == backup.backupSize
    && b.afterSha == auth.desiredSha && b.afterSize == auth.desiredSize
    && b.finalSha == post.observed.sha && b.finalSize == post.observed.size
    && b.copySha == backup.backupSha && b.copySize == backup.backupSize
    && b.beforeMode == auth.current.mode && b.afterMode == auth.desiredMode
    && b.copyMode == backup.backupMode && b.finalMode == post.observed.mode
    && (if b.terminal == Committed
        then dispatched && post.expectedMatch && post.observed.sha == auth.desiredSha
             && post.observed.size == auth.desiredSize && post.observed.mode == auth.desiredMode
        else !post.expectedMatch && post.observed.sha == backup.backupSha
             && post.observed.size == backup.backupSize && post.observed.mode == auth.current.mode)
  }

  predicate BodyOk(h: seq<Event>, b: Body, auth: Authorization) {
    match b
    case Preflight(observed) => h == [] && observed == auth.current
    case Recovery(_, _, _, _, _) => RecoveryOk(h, b, auth)
    case Manifest(_, _, _, sourceMode, _, _) =>
      HasPreflight(h) && ManifestOf(h).None? && !AttentionPending(h) && sourceMode == auth.current.mode
    case Intent(nonceSha, sha, size) =>
      && ManifestOf(h).Some? && !HasIntent(h) && !AttentionPending(h)
      && nonceSha == OfText(auth.nonce) && sha == auth.desiredSha && size == auth.desiredSize
    case Dispatch(_, _, _, _, _, _) => DispatchOk(h, b, auth)
    case Attention(_, _) => HasPreflight(h)
    case Post(_, _, _, _, _) => PostOk(h, b, auth)
    case Receipt(_, _, _, _, _, _, _, _, _, _, _, _, _, _, _) => ReceiptOk(h, b, auth)
  }

  predicate Admissible(h: seq<Event>, e: Event, auth: Authorization) {
    Linked(h, e.payload, auth) && BodyOk(h, e.payload.body, auth)
  }

  /** Every event is admissible after the ones before it. */
  ghost predicate Accepted(events: seq<Event>, auth: Authorization) {
    forall i {:trigger Admissible(events[..i], events[i], auth)} ::
      0 <= i < |events| ==> Admissible(events[..i], events[i], auth)
  }

  // ---------- The validating loop ----------

  lemma Grow(h: seq<Event>, e: Event)
    ensures (h + [e])[..|h|] == h
    ensures ManifestOf(h + [e]) == if e.payload.body.Manifest? then Some(e) else ManifestOf(h)
    ensures LatestPost(h + [e]) == if e.payload.body.Post? then Some(e) else LatestPost(h)
    ensures AttentionPending(h + [e]) ==
            (e.payload.body.Attention? || (!e.payload.body.Recovery? && AttentionPending(h)))
    ensures HasPreflight(h + [e]) == (HasPreflight(h) || e.payload.body.Preflight?)
    ensures HasIntent(h + [e]) == (HasIntent(h) || e.payload.body.Intent?)
    ensures HasDispatch(h + [e]) == (HasDispatch(h) || e.payload.body.Dispatch?)
    ensures Terminated(h + [e]) == (Terminated(h) || e.payload.body.Receipt?)
  {
    assert (h + [e])[..|h|] == h;
    assert e in h + [e];
    forall x | x in h ensures x in h + [e] {}
    assert forall x :: x in h + [e] <==> x in h || x == e;
  }

  /** The loop variables hold what the prefix read so far has established. */
  ghost predicate Tracks(h: seq<Event>, auth: Authorization, previous: Digest, preflight: bool, intent: bool,
                         dispatch: bool, attentionSeen: bool, terminal: bool,
                         manifest: Option<Event>, latestPost: Option<Event>)
  {
    && previous == LastHash(h, auth) && preflight == HasPreflight(h) && intent == HasIntent(h)
    && dispatch == HasDispatch(h) && attentionSeen == AttentionPending(h) && terminal == Terminated(h)
    && manifest == ManifestOf(h) && latestPost == LatestPost(h) && (preflight <==> h != [])
  }

  lemma TrackNext(h: seq<Event>, e: Event, auth: Authorization, previous: Digest, preflight: bool, intent: bool,
                  dispatch: bool, attentionSeen: bool, terminal: bool,
                  manifest: Option<Event>, latestPost: Option<Event>)
    requires Tracks(h, auth, previous, preflight, intent, dispatch, attentionSeen, terminal, manifest, latestPost)
    requires Accepted(h, auth) && Admissible(h, e, auth)
    ensures Accepted(h + [e], auth)
    ensures var b := e.payload.body;
            Tracks(h + [e], auth, e.hash, preflight || b.Preflight?, intent || b.Intent?, dispatch || b.Dispatch?,
                   b.Attention? || (!b.Recovery? && attentionSeen), terminal || b.Receipt?,
                   if b.Manifest? then Some(e) else manifest, if b.Post? then Some(e) else latestPost)
  {
    Grow(h, e);
    ExtendAccepted(h, e, auth);
    FirstIsPreflight(h + [e], auth);
  }

  /** `_validate_chain`: one pass that remembers the facts the later checks need. */
  method ValidateChain(events: seq<Event>, auth: Authorization) returns (ok: bool)
    ensures ok <==> Accepted(events, auth)
  {
    var previous := auth.hash;
    var preflight, intent, dispatch, attentionSeen, terminal := false, false, false, false, false;
    var manifest: Option<Event>, latestPost: Option<Event> := None, None;
    var i := 0;
    while i < |events|
      invariant 0 <= i <= |events|
      invariant Accepted(events[..i], auth)
      invariant Tracks(events[..i], auth, previous, preflight, intent, dispatch, attentionSeen, terminal,
                       manifest, latestPost)
    {
      var e := events[i];
      var fits := CheckEvent(events[..i], e, auth, i + 1, previous, preflight, intent, dispatch,
                             attentionSeen, terminal, manifest, latestPost);
      if !fits {
        return false;
      }
      TrackNext(events[..i], e, auth, previous, preflight, intent, dispatch, attentionSeen, terminal,
                manifest, latestPost);
      assert events[..i+1] == events[..i] + [e];
      match e.payload.body {
        case Preflight(_) => preflight := true;
        case Recovery(_, _, _, _, _) => attentionSeen := false;
        case Manifest(_, _, _, _, _, _) => manifest := Some(e);
        case Intent(_, _, _) => intent := true;
        case Dispatch(_, _, _, _, _, _) => dispatch := true;
        case Attention(_, _) => attentionSeen := true;
        case Post(_, _, _, _, _) => latestPost := Some(e);
        case Receipt(_, _, _, _, _, _, _, _, _, _, _, _, _, _, _) => terminal := true;
      }
      previous := e.hash;
      i := i + 1;
    }
    assert events[..i] == events;
    return true;
  }

  /** The header checks of the loop body, then the per-kind ones. */
  method CheckEvent(ghost h: seq<Event>, e: Event, auth: Authorization, number: nat, previous: Digest,
                    preflight: bool, intent: bool, dispatch: bool, attentionSeen: bool, terminal: bool,
                    manifest: Option<Event>, latestPost: Option<Event>) returns (ok: bool)
    requires number == |h| + 1
    requires Tracks(h, auth, previous, preflight, intent, dispatch, attentionSeen, terminal, manifest, latestPost)
    ensures ok <==> Admissible(h, e, auth)
  {
    if e.payload.sequence != number || e.payload.operation != auth.operation
      || e.payload.authorization != auth.hash || e.payload.previous != previous
      || e.payload.action != auth.action || terminal {
      return false;
    }
    ok := CheckBody(h, e.payload.body, auth, number, preflight, intent, dispatch, attentionSeen,
                    manifest, latestPost);
  }

  /** The per-kind checks of the loop body, on the remembered facts only. */
  method CheckBody(ghost h: seq<Event>, b: Body, auth: Authorization, number: nat,
                   preflight: bool, intent: bool, dispatch: bool, attentionSeen: bool,
                   manifest: Option<Event>, latestPost: Option<Event>) returns (ok: bool)
    requires number == |h| + 1 && (preflight <==> number > 1)
    requires preflight == HasPreflight(h) && intent == HasIntent(h) && dispatch == HasDispatch(h)
    requires attentionSeen == AttentionPending(h)
    requires manifest == ManifestOf(h) && latestPost == LatestPost(h)
    ensures ok <==> BodyOk(h, b, auth)
  {
    match b
    case Preflight(observed) =>
      ok := !preflight && number == 1 && observed == auth.current;
    case Recovery(observed, state, sha, size, mode) =>
      ok := preflight && !intent && !dispatch && latestPost.None? && observed == auth.current;
      if state.Absent? {
        ok := ok && manifest.None? && sha.None? && size.None? && mode.None?;
      } else if state.ExactUnmanifested? {
        ok := ok && manifest.None? && sha == Some(auth.current.sha)
          && size == Some(auth.current.size) && mode.Some?;
      } else {
        ok := ok && manifest.Some? && sha == Some(manifest.value.payload.body.backupSha)
          && size == Some(manifest.value.payload.body.backupSize)
          && mode == Some(manifest.value.payload.body.backupMode);
      }
    case Manifest(_, _, _, sourceMode, _, _) =>
      ok := preflight && manifest.None? && !attentionSeen && sourceMode == auth.current.mode;
    case Intent(nonceSha, sha, size) =>
      ok := manifest.Some? && !intent && !attentionSeen
        && nonceSha == OfText(auth.nonce) && sha == auth.desiredSha && size == auth.desiredSize;
    case Dispatch(temporary, device, inode, mode, parentDevice, parentInode) =>
      ok := intent && !dispatch && !attentionSeen && latestPost.None?
        && temporary.mode == auth.desiredMode && mode == auth.current.mode
        && temporary.sha == auth.desiredSha && temporary.size == auth.desiredSize
        && device == auth.current.device && inode == auth.current.inode
        && parentDevice == auth.parentDevice && parentInode == auth.parentInode;
    case Attention(_, _) =>
      ok := preflight;
    case Post(o, expectedMode, expectedMatch, _, _) =>
      ok := intent && expectedMode == auth.desiredMode;
      if expectedMatch {
        ok := ok && o.sha == auth.desiredSha && o.size == auth.desiredSize && o.mode == auth.desiredMode;
      } else {
        ok := ok && o.sha == auth.current.sha && o.size == auth.current.size && o.mode == auth.current.mode;
      }
      if !dispatch && !attentionSeen {
        ok := ok && !expectedMatch && manifest.Some?
          && o.sha == manifest.value.payload.body.backupSha
          && o.size == manifest.value.payload.body.backupSize;
      }
    case Receipt(_, _, _, _, _, _, _, _, _, _, _, _, _, _, _) =>
      if manifest.None? || !intent || latestPost.None? { return false; }
      ok := ReceiptMatches(b, auth, manifest.value, latestPost.value, dispatch);
  }

  lemma ExtendAccepted(h: seq<Event>, e: Event, auth: Authorization)
    requires Accepted(h, auth) && Admissible(h, e, auth)
    ensures Accepted(h + [e], auth)
  {
    forall i | 0 <= i < |h + [e]| ensures Admissible((h + [e])[..i], (h + [e])[i], auth) {
      if i < |h| { assert (h + [e])[..i] == h[..i]; } else { assert (h + [e])[..i] == h; }
    }
  }

  lemma FirstIsPreflight(events: seq<Event>, auth: Authorization)
    requires Accepted(events, auth)
    ensures HasPreflight(events) <==> events != []
    ensures events != [] ==> events[0].payload.body.Preflight?
  {
    if events != [] {
      assert events[..0] == [];
      assert events[0].payload.body.Preflight? by {
        assert Admissible([], events[0], auth);
      }
      assert events[0] in events;
    }
  }

  /** Cutting the tail off an accepted ledger leaves an accepted ledger. */
  lemma PrefixAccepted(events: seq<Event>, k: nat, auth: Authorization)
    requires k <= |events| && Accepted(events, auth)
    ensures Accepted(events[..k], auth)
  {
    forall i | 0 <= i < k ensures Admissible(events[..k][..i], events[..k][i], auth) {
      assert events[..k][..i] == events[..i];
    }
  }

  // ---------- What acceptance means ----------

  lemma {:induction false} ManifestFound(h: seq<Event>, i: nat)
    requires i < |h| && h[i].payload.body.Manifest?
    ensures ManifestOf(h).Some?
  {
    if i < |h| - 1 { ManifestFound(h[..|h|-1], i); }
  }

  /** The latest post is a real index, and nothing after it is a post. */
  lemma {:induction false} LatestPostAt(h: seq<Event>) returns (k: nat)
    requires exists i :: 0 <= i < |h| && h[i].payload.body.Post?
    ensures k < |h| && h[k].payload.body.Post? && LatestPost(h) == Some(h[k])
    ensures forall i :: k < i < |h| ==> !h[i].payload.body.Post?
  {
    if h[|h|-1].payload.body.Post? {
      k := |h| - 1;
    } else {
      var i :| 0 <= i < |h| && h[i].payload.body.Post?;
      assert h[..|h|-1][i].payload.body.Post?;
      k := LatestPostAt(h[..|h|-1]);
    }
  }

  /** An attention stays pending until a recovery follows it. */
  lemma {:induction false} PendingUntilRecovery(h: seq<Event>, i: nat)
    requires i < |h| && h[i].payload.body.Attention?
    requires forall k :: i < k < |h| ==> !h[k].payload.body.Recovery?
    ensures AttentionPending(h)
  {
    if i < |h| - 1 {
      assert !h[|h|-1].payload.body.Recovery?;
      PendingUntilRecovery(h[..|h|-1], i);
    }
  }

  /** Which kinds may follow which: the first event is the only preflight; at most
      one manifest, intent and dispatch; the receipt ends the ledger; no post
      before the dispatch; no recovery once there is an intent. */
  ghost predicate Ordered(earlier: Body, later: Body) {
    && !later.Preflight? && !earlier.Receipt?
    && !(earlier.Manifest? && later.Manifest?)
    && !(earlier.Intent? && (later.Intent? || later.Recovery? || later.Manifest?))
    && !(earlier.Dispatch? && (later.Dispatch? || later.Recovery? || later.Intent? || later.Manifest?))
    && !(earlier.Post? && (later.Dispatch? || later.Recovery? || later.Intent? || later.Manifest?))
  }

  lemma OrderOfKinds(events: seq<Event>, auth: Authorization, i: nat, j: nat)
    requires Accepted(events, auth) && i < j < |events|
    ensures Ordered(events[i].payload.body, events[j].payload.body)
  {
    var h, e := events[..j], events[j];
    assert h[i] == events[i] && events[i] in h;
    assert Admissible(h, e, auth);
    var earlier := events[i].payload.body;
    if earlier.Manifest? { ManifestFound(h, i); }
    if earlier.Post? { var k := LatestPostAt(h); }
    if (earlier.Intent? || earlier.Dispatch? || earlier.Post?) && e.payload.body.Manifest? {
      var m := IntentHasManifest(events, auth, i);
      ManifestFound(h, m);
    }
    if (earlier.Dispatch? || earlier.Post?) && e.payload.body.Intent? {
      EventFacts(events, auth, i);
      assert HasIntent(h);
    }
  }

  lemma EventFacts(events: seq<Event>, auth: Authorization, j: nat)
    requires Accepted(events, auth) && j < |events|
    ensures Linked(events[..j], events[j].payload, auth)
    ensures var b := events[j].payload.body;
            && (b.Intent? || b.Receipt? ==> ManifestOf(events[..j]).Some?)
            && (b.Dispatch? || b.Post? || b.Receipt? ==> HasIntent(events[..j]))
            && (b.Receipt? ==> LatestPost(events[..j]).Some?)
  {
    assert Admissible(events[..j], events[j], auth);
  }

  lemma IndexOf(h: seq<Event>, e: Event) returns (i: nat)
    requires e in h
    ensures i < |h| && h[i] == e
  {
    i :| 0 <= i < |h| && h[i] == e;
  }

  /** Every intent, dispatch, post or receipt comes after the manifest. */
  lemma {:induction false} IntentHasManifest(events: seq<Event>, auth: Authorization, j: nat) returns (m: nat)
    requires Accepted(events, auth) && j < |events|
    requires var b := events[j].payload.body; b.Intent? || b.Dispatch? || b.Post? || b.Receipt?
    ensures m < j && events[m].payload.body.Manifest?
  {
    var h := events[..j];
    EventFacts(events, auth, j);
    if events[j].payload.body.Dispatch? || events[j].payload.body.Post? {
      var e :| e in h && e.payload.body.Intent?;
      var i := IndexOf(h, e);
      m := IntentHasManifest(events, auth, i);
    } else {
      m := IndexOf(h, ManifestOf(h).value);
    }
  }

  /** A manifest, intent or dispatch never stands after an attention that no
      recovery has answered. */
  lemma AttentionBarrier(events: seq<Event>, auth: Authorization, i: nat, j: nat) returns (r: nat)
    requires Accepted(events, auth) && i < j < |events| && events[i].payload.body.Attention?
    requires var b := events[j].payload.body; b.Manifest? || b.Intent? || b.Dispatch?
    ensures i < r < j && events[r].payload.body.Recovery?
  {
    assert Admissible(events[..j], events[j], auth);
    if forall k :: i < k < j ==> !events[k].payload.body.Recovery? {
      PendingUntilRecovery(events[..j], i);
    }
    r :| i < r < j && events[r].payload.body.Recovery?;
  }

  lemma CommittedFacts(h: seq<Event>, e: Event, auth: Authorization)
    requires Admissible(h, e, auth) && e.payload.body.Receipt? && e.payload.body.terminal == Committed
    ensures HasDispatch(h) && LatestPost(h).Some? && e.payload.body.postHash == LatestPost(h).value.hash
    ensures var o := LatestPost(h).value.payload.body.observed;
            o.sha == auth.desiredSha && o.size == auth.desiredSize && o.mode == auth.desiredMode
  {}

  /** A COMMITTED receipt ends the ledger, follows a dispatch, and rests on the
      last post, which shows exactly the authorized image and mode. */
  lemma CommittedShowsImage(events: seq<Event>, auth: Authorization, j: nat) returns (d: nat, p: nat)
    requires Accepted(events, auth) && j < |events|
    requires events[j].payload.body.Receipt? && events[j].payload.body.terminal == Committed
    ensures j == |events| - 1 && d < p < j
    ensures events[d].payload.body.Dispatch?
    ensures events[p].payload.body.Post? && forall k :: p < k < j ==> !events[k].payload.body.Post?
    ensures var o := events[p].payload.body.observed;
            o.sha == auth.desiredSha && o.size == auth.desiredSize && o.mode == auth.desiredMode
    ensures events[j].payload.body.postHash == events[p].hash
  {
    if j < |events| - 1 { OrderOfKinds(events, auth, j, j + 1); }
    CommittedFacts(events[..j], events[j], auth);
    var e :| e in events[..j] && e.payload.body.Dispatch?;
    d := IndexOf(events[..j], e);
    var q := IndexOf(events[..j], LatestPost(events[..j]).value);
    p := LatestPostAt(events[..j]);
    if p < d { OrderOfKinds(events, auth, p, d); }
  }

  // ---------- Tampering ----------

  /** The part of acceptance that tampering is judged by. */
  ghost predicate Chained(events: seq<Event>) {
    forall i :: 0 <= i < |events| ==>
      && events[i].payload.sequence == i + 1
      && (i > 0 ==> events[i].payload.previous == events[i-1].hash)
  }

  lemma LinkAt(events: seq<Event>, auth: Authorization, i: nat)
    requires Accepted(events, auth) && i < |events|
    ensures events[i].payload.sequence == i + 1
    ensures i > 0 ==> events[i].payload.previous == events[i-1].hash
  {
    assert Admissible(events[..i], events[i], auth);
  }

  lemma AcceptedIsChained(events: seq<Event>, auth: Authorization)
    requires Accepted(events, auth)
    ensures Chained(events)
  {
    forall i | 0 <= i < |events|
      ensures events[i].payload.sequence == i + 1
      ensures i > 0 ==> events[i].payload.previous == events[i-1].hash
    {
      LinkAt(events, auth, i);
    }
  }

  lemma {:induction false} ChainBackwards(a: seq<Event>, b: seq<Event>, k: nat)
    requires Chained(a) && Chained(b) && |a| == |b| && k < |a|
    requires forall i :: 0 <= i < |a| ==> Authentic(a[i]) && Authentic(b[i])
    requires a[k].hash == b[k].hash
    ensures a[..k+1] == b[..k+1]
  {
    assert Authentic(a[k]) && Authentic(b[k]);
    assert a[k] == b[k];
    if k > 0 { ChainBackwards(a, b, k - 1); }
    assert a[..k+1] == a[..k] + [a[k]] && b[..k+1] == b[..k] + [b[k]];
  }

  /** With self-authenticating records the last hash fixes the whole ledger. */
  lemma LastHashFixesLedger(a: seq<Event>, b: seq<Event>, auth: Authorization)
    requires Accepted(a, auth) && Accepted(b, auth)
    requires forall e :: e in a || e in b ==> Authentic(e)
    requires a != [] && b != [] && a[|a|-1].hash == b[|b|-1].hash
    ensures a == b
  {
    AcceptedIsChained(a, auth);
    AcceptedIsChained(b, auth);
    assert Authentic(a[|a|-1]) && Authentic(b[|b|-1]);
    assert |a| == |b|;
    ChainBackwards(a, b, |a| - 1);
    assert a == a[..|a|] && b == b[..|b|];
  }

  /** Whatever subset of an accepted ledger's events is accepted again is a prefix:
      only a tail can be deleted unnoticed, and nothing can be reordered. */
  lemma AcceptedSubsetIsPrefix(events: seq<Event>, part: seq<Event>, auth: Authorization)
    requires Accepted(events, auth) && Accepted(part, auth)
    requires forall e :: e in part ==> e in events
    ensures |part| <= |events| && part == events[..|part|]
  {
    AcceptedIsChained(events, auth);
    AcceptedIsChained(part, auth);
    forall i | 0 <= i < |part| ensures i < |events| && part[i] == events[i] {
      var j := IndexOf(events, part[i]);
    }
    if part != [] {
      var j := IndexOf(events, part[|part|-1]);
    }
  }
}
