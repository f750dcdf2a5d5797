/** Records, digests and names shared by the controlled-write modules.

    A digest is the term it was computed from, so equal digests come from equal
    inputs: SHA-256 over canonical JSON is taken to be injective, and the hash
    domains are kept apart by the constructors. */
module Records {
  import opened Wrappers

  type Bytes = seq<bv8>

  datatype Digest =
    | OfBytes(bytes: Bytes)
    | OfText(text: string)
    | OfPayload(payload: Payload)

  datatype Action = ApplyProposal | RestoreBackup

  /** Content digest, size, identity and permission bits of one regular file. */
  datatype Observation = Observation(sha: Digest, size: nat, device: nat, inode: nat, mode: nat)

  datatype BackupState = Absent | ExactUnmanifested | ExactManifested

  datatype Effect = Unknown | NoEffect | EffectPresent | ExternalDrift

  datatype Fsync = Completed | Unsupported | Failed

  datatype Terminal = Committed | FailedNoEffect

  /** The kind-specific fields of one ledger event. */
  datatype Body =
    | Preflight(observed: Observation)
    | Recovery(observed: Observation, backupState: BackupState,
               recoverySha: Option<Digest>, recoverySize: Option<nat>, recoveryMode: Option<nat>)
    | Manifest(backupSha: Digest, backupSize: nat, backupMode: nat, sourceMode: nat,
               restricted: bool, fsynced: bool)
    | Intent(nonceSha: Digest, intendedSha: Digest, intendedSize: nat)
    | Dispatch(temporary: Observation, targetDevice: nat, targetInode: nat, targetMode: nat,
               parentDevice: nat, parentInode: nat)
    | Post(observed: Observation, expectedMode: nat, expectedMatch: bool, scopeMatch: bool, fsync: Fsync)
    | Attention(code: string, effect: Effect)
    | Receipt(terminal: Terminal, manifestHash: Digest, postHash: Digest,
              beforeSha: Digest, beforeSize: nat, beforeMode: nat,
              afterSha: Digest, afterSize: nat, afterMode: nat,
              finalSha: Digest, finalSize: nat, finalMode: nat,
              copySha: Digest, copySize: nat, copyMode: nat)

  /** Everything of an event but its own hash: what that hash is taken over. */
  datatype Payload = Payload(sequence: nat, operation: string, authorization: Digest,
                             previous: Digest, action: Action, body: Body)

  datatype Event = Event(payload: Payload, hash: Digest)

  /** The part of a user or restore authorization that the ledger is judged against. */
  datatype Authorization = Authorization(
    action: Action, operation: string, nonce: string, hash: Digest,
    current: Observation, desiredSha: Digest, desiredSize: nat, desiredMode: nat,
    parentDevice: nat, parentInode: nat)

  /** A record parses only if its hash field is the hash of the rest, and the
      first event of a chain points at the authorization. */
  predicate Authentic(e: Event) {
    && e.hash == OfPayload(e.payload)
    && (e.payload.sequence == 1 ==> e.payload.previous == e.payload.authorization)
  }
}
