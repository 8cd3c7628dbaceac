/**
 The state file, the lease, and the evidence that reconciling a dead
 uploader's lease rests on (scripts/devnet/upload-execution-lease.mjs). A hash
 is the digest of exactly one value: it is written as the value it stands for.
 */
module LeaseEvidence {
  import opened ByteStrings
  import opened ChunkRecords
  import opened Outcomes

  type Key = string

  datatype Hash =
    | OfState(file: StateFile)
    | OfLease(lease: Lease)
    | OfPlan(plan: PlanBinding)
    | OfOnchain(onchain: OnchainProjection)
    | OfEvidence(evidence: EvidenceProjection)
    | Malformed(text: string)

  /** The bytes of the state file: a state, written canonically or in some other layout. */
  datatype StateFile = StateFile(state: State, canonical: bool)

  datatype Identity = Identity(
    program: Key, buffer: Key, authority: Key, owner: Key, allocation: int, binaryLength: int, binarySha256: Digest)

  datatype State = State(
    identity: Identity, planFingerprint: Hash, chunks: seq<Record>, windows: seq<Window>, otherFields: string)

  datatype Window = Window(
    executionId: string, terminal: bool, status: string, otherFields: string,
    reconciliationOutcomes: Option<seq<Receipt>>)

  datatype Receipt = Receipt(
    executionId: string, evidenceHash: Hash, appliedAt: string, stateSha256Before: Hash, leaseSha256: Hash,
    onchainEvidenceFingerprint: Hash, transitions: seq<Transition>)

  datatype Transition = Transition(
    chunkIndex: int, from: Status, to: Status, signature: Option<string>, slot: int, feeLamports: int,
    chunkSha256: Digest)

  datatype Lease = Lease(
    executionId: string, pid: int, hostname: string, startedAt: string, program: Key, buffer: Key,
    planFingerprint: Hash, stateSha256AtAcquire: Hash)

  datatype PlanBinding = PlanBinding(
    program: Key, buffer: Key, authority: Key, allocation: int, binarySha256: Digest, maxPayload: nat,
    chunks: seq<(int, int, int, Digest)>)

  /** What the operator expects; `maxPayload` is the payload limit derived from the buffer's and authority's keys. */
  datatype Expected = Expected(
    genesis: string, identity: Identity, maxPayload: nat, planFingerprint: Hash, stateSha256: Hash)

  /** What was read about one chunk's transaction and its range of the buffer. */
  datatype Evidence = Evidence(
    chunkIndex: int,
    recordedStatus: Status,
    signature: Option<string>,
    signatureStatusFound: bool,
    confirmationStatus: Option<string>,
    statusSlot: Option<int>,
    statusErr: Option<bool>,
    transactionFound: bool,
    transactionSignature: Option<string>,
    signatureCount: int,
    slot: Option<int>,
    feeLamports: Option<int>,
    metaErr: Option<bool>,
    legacyMessage: bool,
    instructionCount: int,
    innerInstructionCount: Option<int>,
    instructionDecoded: bool,
    program: Option<Key>,
    accountCount: int,
    buffer: Option<Key>,
    authority: Option<Key>,
    bufferWritable: bool,
    authoritySigner: bool,
    offset: Option<int>,
    payloadLength: int,
    payloadSha256: Option<Digest>,
    payloadExactMatch: bool,
    onchainLength: int,
    onchainSha256: Digest,
    onchainExactMatch: bool,
    snapshotSlot: Option<int>)

  datatype ObservedBuffer = ObservedBuffer(
    address: Key, owner: Key, authority: Key, allocation: int, planFingerprint: Hash)

  datatype Observations = Observations(
    verifiedGenesis: string, programAbsent: bool, programContextSlot: int, confirmedChunksMatch: bool,
    bufferData: Bytes, bufferContextSlot: int, buffer: ObservedBuffer, transactions: seq<Evidence>)

  datatype OnchainProjection = OnchainProjection(
    genesis: string, minimumEvidenceSlot: int, bufferDataSha256: Digest,
    address: Key, owner: Key, authority: Key, allocation: int, transactions: seq<Evidence>)

  datatype EvidenceProjection = EvidenceProjection(
    executionId: string, preStateSha256: Hash, leaseSha256: Hash,
    leaseExecutionId: string, leaseProgram: Key, leaseBuffer: Key, leasePlanFingerprint: Hash,
    leaseStateSha256AtAcquire: Hash,
    genesis: string, identity: Identity, planFingerprint: Hash,
    terminalOutcome: Window, onchainEvidenceFingerprint: Hash,
    transactions: seq<Evidence>, proposedTransitions: seq<Transition>)

  datatype Input = Input(executionId: string, expected: Expected, observations: Observations)

  /** The fields of the evidence that enter a fingerprint; the others are fixed. */
  function Project(e: Evidence): Evidence {
    e.(signatureStatusFound := true, transactionFound := true, snapshotSlot := None)
  }

  function PlanOf(expected: Expected, chunks: seq<Record>): Hash {
    var id := expected.identity;
    OfPlan(PlanBinding(id.program, id.buffer, id.authority, id.allocation, id.binarySha256, expected.maxPayload,
      seq(|chunks|, i requires 0 <= i < |chunks| =>
        (chunks[i].index, chunks[i].offset, chunks[i].length, chunks[i].sha256))))
  }

  predicate SafeCount(n: int) {
    0 <= n <= MAX_SAFE_INTEGER
  }

  predicate Open(r: Record) {
    r.status == Sent || r.status == Unknown
  }
}
