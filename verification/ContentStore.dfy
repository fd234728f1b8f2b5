/**
 * Content-addressed uploads: any number of requests, each one call of `process_upload` in a session of its
 * own that commits when the call returns and rolls back when it raises or stops, and the abandoned-upload
 * cleanup, which lists rows and then fails each one and deletes its key; over the uploads and assets tables
 * and the object store. Steps of different requests may come in any order.
 */
module ContentStore {
  import opened Wrappers
  import opened FileValidation

  type Id = nat
  type Key = string
  type Time = int

  datatype UploadStatus = Pending | Processing | Completed | Failed

  datatype Upload = Upload(
    user: Id,
    storageKey: Key,
    status: UploadStatus,
    size: nat,
    checksum: Option<string>,
    assetId: Option<Id>,
    idempotencyKey: Option<string>,
    createdAt: Time,
    completedAt: Option<Time>)

  datatype Asset = Asset(user: Id, sha256: string, size: nat, storageKey: Key)

  /** How far a call has come; one that has raised only has its session to roll back. */
  datatype Phase =
    | Looked(user: Id, key: Option<string>)
    | Created(upload: Id)
    | Started(upload: Id)
    | Stored(upload: Id, content: Bytes)
    | Matched(upload: Id, content: Bytes, existing: Id)
    | Missed(upload: Id, content: Bytes)
    | Linked(upload: Id, content: Bytes, asset: Id)
    | Done(upload: Id, content: Bytes, asset: Id)
    | Raised(upload: Id)

  /**
   * `uploads` and `assets` are the tables as committed, `drafts` and `newAssets` the rows that open sessions
   * have written; `calls` are the calls under way; `listed` the rows that a cleanup has listed and not yet
   * failed, `doomed` those it has failed and whose key it has not yet deleted; `orphans` the objects that were
   * left without an asset.
   */
  datatype State = State(
    uploads: map<Id, Upload>,
    assets: map<Id, Asset>,
    drafts: map<Id, Upload>,
    newAssets: map<Id, Asset>,
    objects: map<Key, Bytes>,
    calls: map<Id, Phase>,
    listed: multiset<Id>,
    doomed: multiset<Id>,
    orphans: set<Key>)

  // ----- Steps of process_upload

  predicate HasKey(u: Upload, user: Id, key: Option<string>) {
    key.Some? && u.user == user && u.idempotencyKey == key
  }

  /** The partial unique index on (user, idempotency key). */
  predicate KeyTaken(uploads: map<Id, Upload>, user: Id, key: Option<string>) {
    exists id | id in uploads :: HasKey(uploads[id], user, key)
  }

  /** The unique index on the hash. */
  predicate HashTaken(assets: map<Id, Asset>, sha256: string) {
    exists id | id in assets :: assets[id].sha256 == sha256
  }

  function Close(s: State, call: Id): State {
    s.(calls := s.calls - {call})
  }

  function Goto(s: State, call: Id, p: Phase): State {
    s.(calls := s.calls[call := p])
  }

  function NewUpload(user: Id, storageKey: Key, key: Option<string>, now: Time): Upload {
    Upload(user, storageKey, Pending, 0, None, None, key, now, None)
  }

  function FailedUpload(u: Upload, now: Time): Upload {
    u.(status := Failed, completedAt := Some(now))
  }

  function CompletedUpload(u: Upload, checksum: string, size: nat, asset: Id, now: Time): Upload {
    u.(status := Completed, checksum := Some(checksum), assetId := Some(asset), size := size, completedAt := Some(now))
  }

  /** The storage key of a committed row, and that of a row in an open session. */
  function KeyOf(s: State, upload: Id): Key
    requires upload in s.uploads
  {
    s.uploads[upload].storageKey
  }

  function DraftKey(s: State, upload: Id): Key
    requires upload in s.drafts
  {
    s.drafts[upload].storageKey
  }

  /**
   * A rejection is a refused content or a store that failed or aborted: no object is written, the row is
   * failed, and the call raises. A rollback ends a call that raised, and also one that stops at any point.
   */
  datatype Step =
    | LookupStep(call: Id, user: Id, key: Option<string>, allowed: bool, found: Option<Id>)
    | InsertStep(call: Id, newUpload: Id, storageKey: Key, now: Time)
    | StartStep(call: Id)
    | RejectStep(call: Id, at: Time)
    | StoreStep(call: Id, received: Bytes)
    | FindStep(call: Id, match_: Option<Id>)
    | CreateAssetStep(call: Id, newAsset: Id, reachable: bool)
    | DropDuplicateStep(call: Id, deleted: bool)
    | CompleteStep(call: Id, done: Time)
    | CommitStep(call: Id)
    | RollbackStep(call: Id)
    | ListStep(batch: set<Id>, listedAt: Time)
    | FailRowStep(row: Id, cleanedAt: Time)
    | DeleteKeyStep(row: Id)

  const DAY: Time := 86400

  predicate Abandoned(u: Upload, now: Time) {
    u.status.Pending? && u.createdAt < now - DAY
  }

  predicate KeyFree(rows: map<Id, Upload>, key: Key) {
    forall id | id in rows :: rows[id].storageKey != key
  }

  predicate NoAssetAt(assets: map<Id, Asset>, key: Key) {
    forall a | a in assets :: assets[a].storageKey != key
  }

  /** The identifier and storage key drawn for a new upload. */
  predicate FreshUpload(s: State, id: Id, storageKey: Key) {
    && id !in s.uploads && id !in s.drafts
    && storageKey != "" && storageKey !in s.objects
    && KeyFree(s.uploads, storageKey) && KeyFree(s.drafts, storageKey) && NoAssetAt(s.assets, storageKey)
  }

  /** The call has reached this phase and its row is in its session. */
  predicate At(s: State, call: Id, reached: bool) {
    call in s.calls && reached && !s.calls[call].Looked? && s.calls[call].upload in s.drafts
  }

  /**
   * Reads see committed rows. An insert waits while another open session holds the key or the hash that it is
   * about to insert.
   */
  predicate Enabled(hash: Bytes -> string, s: State, step: Step) {
    match step
    case LookupStep(call, user, key, _, found) =>
      && call !in s.calls
      && (found.Some? ==> found.value in s.uploads && HasKey(s.uploads[found.value], user, key))
      && (found.None? ==> !KeyTaken(s.uploads, user, key))
    case InsertStep(call, upload, storageKey, _) =>
      && call in s.calls && s.calls[call].Looked?
      && FreshUpload(s, upload, storageKey)
      && !KeyTaken(s.drafts, s.calls[call].user, s.calls[call].key)
    case StartStep(call) => At(s, call, call in s.calls && s.calls[call].Created?)
    case RejectStep(call, _) => At(s, call, call in s.calls && s.calls[call].Started?)
    case StoreStep(call, _) => At(s, call, call in s.calls && s.calls[call].Started?)
    case FindStep(call, found) =>
      && At(s, call, call in s.calls && s.calls[call].Stored?)
      && var sha256 := hash(s.calls[call].content);
      && (found.Some? ==> found.value in s.assets && s.assets[found.value].sha256 == sha256)
      && (found.None? ==> !HashTaken(s.assets, sha256))
    case CreateAssetStep(call, asset, _) =>
      && At(s, call, call in s.calls && s.calls[call].Missed?)
      && asset !in s.assets && asset !in s.newAssets
      && !HashTaken(s.newAssets, hash(s.calls[call].content))
    case DropDuplicateStep(call, _) => At(s, call, call in s.calls && s.calls[call].Matched?)
    case CompleteStep(call, _) => At(s, call, call in s.calls && s.calls[call].Linked?)
    case CommitStep(call) => At(s, call, call in s.calls && s.calls[call].Done?)
    case RollbackStep(call) => call in s.calls
    case ListStep(batch, now) => forall id | id in batch :: id in s.uploads && Abandoned(s.uploads[id], now)
    case FailRowStep(id, _) => id in s.listed && id in s.uploads
    case DeleteKeyStep(id) => id in s.doomed && id in s.uploads
  }

  /** The session holds an asset that it created itself. */
  predicate OwnsAsset(s: State, p: Phase) {
    (p.Linked? || p.Done?) && p.asset in s.newAssets
  }

  /** The call has written an object that no committed asset owns yet. */
  predicate HoldsObject(s: State, p: Phase) {
    p.Stored? || p.Matched? || p.Missed? || OwnsAsset(s, p)
  }

  function Inserted(s: State, call: Id, upload: Id, storageKey: Key, now: Time): State
    requires call in s.calls && s.calls[call].Looked?
  {
    var p := s.calls[call];
    if KeyTaken(s.uploads, p.user, p.key) then Close(s, call)
    else Goto(s, call, Created(upload)).(drafts := s.drafts[upload := NewUpload(p.user, storageKey, p.key, now)])
  }

  function Begun(s: State, call: Id): State
    requires At(s, call, true)
  {
    var id := s.calls[call].upload;
    Goto(s, call, Started(id)).(drafts := s.drafts[id := s.drafts[id].(status := Processing)])
  }

  function Rejected(s: State, call: Id, now: Time): State
    requires At(s, call, true)
  {
    var id := s.calls[call].upload;
    Goto(s, call, Raised(id)).(drafts := s.drafts[id := FailedUpload(s.drafts[id], now)])
  }

  function Received(s: State, call: Id, content: Bytes): State
    requires At(s, call, true)
  {
    var id := s.calls[call].upload;
    Goto(s, call, Stored(id, content)).(objects := s.objects[DraftKey(s, id) := content])
  }

  function Found(s: State, call: Id, asset: Option<Id>): State
    requires call in s.calls && s.calls[call].Stored?
  {
    var p := s.calls[call];
    Goto(s, call, if asset.Some? then Matched(p.upload, p.content, asset.value) else Missed(p.upload, p.content))
  }

  /** The asset that a call creates for its content. */
  function AssetOf(hash: Bytes -> string, s: State, upload: Id, content: Bytes): Asset
    requires upload in s.drafts
  {
    Asset(s.drafts[upload].user, hash(content), |content|, DraftKey(s, upload))
  }

  function AssetCreated(hash: Bytes -> string, s: State, call: Id, asset: Id, reachable: bool): State
    requires At(s, call, call in s.calls && s.calls[call].Missed?)
  {
    var p := s.calls[call];
    if !reachable || HashTaken(s.assets, hash(p.content))
    then Goto(s, call, Raised(p.upload)).(orphans := s.orphans + {DraftKey(s, p.upload)})
    else
      Goto(s, call, Linked(p.upload, p.content, asset)).(
        newAssets := s.newAssets[asset := AssetOf(hash, s, p.upload, p.content)])
  }

  function DuplicateDropped(s: State, call: Id, deleted: bool): State
    requires At(s, call, call in s.calls && s.calls[call].Matched?)
  {
    var p := s.calls[call];
    var key := DraftKey(s, p.upload);
    var next := Goto(s, call, Linked(p.upload, p.content, p.existing));
    if deleted then next.(objects := s.objects - {key}) else next.(orphans := s.orphans + {key})
  }

  function Finished(hash: Bytes -> string, s: State, call: Id, now: Time): State
    requires At(s, call, call in s.calls && s.calls[call].Linked?)
  {
    var p := s.calls[call];
    Goto(s, call, Done(p.upload, p.content, p.asset)).(drafts := s.drafts[p.upload :=
      CompletedUpload(s.drafts[p.upload], hash(p.content), |p.content|, p.asset, now)])
  }

  /** The end of a session without an exception: its rows become visible. */
  function Committed(s: State, call: Id): State
    requires At(s, call, call in s.calls && s.calls[call].Done?)
  {
    var p := s.calls[call];
    var own := p.asset in s.newAssets;
    Close(s, call).(
      uploads := s.uploads[p.upload := s.drafts[p.upload]], drafts := s.drafts - {p.upload},
      assets := if own then s.assets[p.asset := s.newAssets[p.asset]] else s.assets,
      newAssets := s.newAssets - {p.asset})
  }

  /** The end of a session with an exception, or of the process: its rows are gone, its object is not. */
  function RolledBack(s: State, call: Id): State
    requires call in s.calls
  {
    var p := s.calls[call];
    if p.Looked? then Close(s, call)
    else
      Close(s, call).(
        drafts := s.drafts - {p.upload},
        newAssets := if p.Linked? || p.Done? then s.newAssets - {p.asset} else s.newAssets,
        orphans := if HoldsObject(s, p) && p.upload in s.drafts then s.orphans + {DraftKey(s, p.upload)}
                   else s.orphans)
  }

  function Listed(s: State, batch: set<Id>): State {
    s.(listed := s.listed + multiset(batch))
  }

  /** The database refuses to fail a row that has an asset: the update raises and the cleanup stops. */
  predicate Refuses(u: Upload) {
    u.assetId.Some?
  }

  /** The cleanup's update of a row that it listed. */
  function RowFailed(s: State, id: Id, now: Time): State
    requires id in s.uploads
  {
    if Refuses(s.uploads[id]) then s.(listed := s.listed - multiset{id})
    else
      s.(uploads := s.uploads[id := FailedUpload(s.uploads[id], now)],
         listed := s.listed - multiset{id}, doomed := s.doomed + multiset{id})
  }

  function KeyDeleted(s: State, id: Id): State
    requires id in s.uploads
  {
    s.(objects := if KeyOf(s, id) != "" then s.objects - {KeyOf(s, id)} else s.objects,
       doomed := s.doomed - multiset{id})
  }

  function Apply(hash: Bytes -> string, s: State, step: Step): State
    requires Enabled(hash, s, step)
  {
    match step
    case LookupStep(call, user, key, allowed, found) =>
      if found.Some? || !allowed then s else Goto(s, call, Looked(user, key))
    case InsertStep(call, upload, storageKey, now) => Inserted(s, call, upload, storageKey, now)
    case StartStep(call) => Begun(s, call)
    case RejectStep(call, now) => Rejected(s, call, now)
    case StoreStep(call, content) => Received(s, call, content)
    case FindStep(call, found) => Found(s, call, found)
    case CreateAssetStep(call, asset, reachable) => AssetCreated(hash, s, call, asset, reachable)
    case DropDuplicateStep(call, deleted) => DuplicateDropped(s, call, deleted)
    case CompleteStep(call, now) => Finished(hash, s, call, now)
    case CommitStep(call) => Committed(s, call)
    case RollbackStep(call) => RolledBack(s, call)
    case ListStep(batch, _) => Listed(s, batch)
    case FailRowStep(id, now) => RowFailed(s, id, now)
    case DeleteKeyStep(id) => KeyDeleted(s, id)
  }

  ghost predicate Path(hash: Bytes -> string, trace: seq<State>, steps: seq<Step>) {
    && |trace| == |steps| + 1
    && forall i | 0 <= i < |steps| ::
         Enabled(hash, trace[i], steps[i]) && trace[i + 1] == Apply(hash, trace[i], steps[i])
  }

  lemma PathGrows(hash: Bytes -> string, trace: seq<State>, steps: seq<Step>, step: Step)
    requires Path(hash, trace, steps) && Enabled(hash, trace[|steps|], step)
    ensures Path(hash, trace + [Apply(hash, trace[|steps|], step)], steps + [step])
  {
  }

  lemma JoinedStep(
    hash: Bytes -> string, trace: seq<State>, steps: seq<Step>, trace': seq<State>, steps': seq<Step>, i: nat)
    requires Path(hash, trace, steps) && Path(hash, trace', steps') && trace[|steps|] == trace'[0]
    requires i < |steps + steps'|
    ensures var t, p := trace + trace'[1..], steps + steps';
            if i < |steps| then t[i] == trace[i] && p[i] == steps[i] && t[i + 1] == trace[i + 1]
            else t[i] == trace'[i - |steps|] && p[i] == steps'[i - |steps|] && t[i + 1] == trace'[i - |steps| + 1]
  {
  }

  lemma PathsJoin(hash: Bytes -> string, trace: seq<State>, steps: seq<Step>, trace': seq<State>, steps': seq<Step>)
    requires Path(hash, trace, steps) && Path(hash, trace', steps') && trace[|steps|] == trace'[0]
    ensures Path(hash, trace + trace'[1..], steps + steps')
    ensures (trace + trace'[1..])[|steps| + |steps'|] == trace'[|steps'|]
  {
    var t, p := trace + trace'[1..], steps + steps';
    forall i | 0 <= i < |p| ensures Enabled(hash, t[i], p[i]) && t[i + 1] == Apply(hash, t[i], p[i]) {
      JoinedStep(hash, trace, steps, trace', steps', i);
    }
  }

  // ----- Consistent tables

  /** The asset's object is present, hashes to its identity and has its size. */
  predicate AssetOk(hash: Bytes -> string, s: State, a: Id)
    requires a in s.assets
  {
    var asset := s.assets[a];
    && asset.storageKey in s.objects
    && hash(s.objects[asset.storageKey]) == asset.sha256
    && |s.objects[asset.storageKey]| == asset.size
  }

  /** What `Upload.validate` asks of a row: an asset only when completed, a completion time exactly when terminal. */
  predicate RowValid(u: Upload) {
    && (u.assetId.Some? ==> u.status.Completed?)
    && (u.status.Completed? || u.status.Failed? <==> u.completedAt.Some?)
  }

  /** A row is valid; completed, it links to an asset with its checksum; pending, it has no object and no asset. */
  predicate UploadOk(s: State, u: Id)
    requires u in s.uploads
  {
    var upload := s.uploads[u];
    && RowValid(upload)
    && (upload.status.Completed? ==>
          && upload.assetId.Some? && upload.assetId.value in s.assets
          && upload.checksum == Some(s.assets[upload.assetId.value].sha256))
    && (upload.status.Pending? ==> upload.storageKey !in s.objects && NoAssetAt(s.assets, upload.storageKey))
  }

  ghost predicate HashesDistinct(assets: map<Id, Asset>) {
    forall a1, a2 | a1 in assets && a2 in assets && assets[a1].sha256 == assets[a2].sha256 :: a1 == a2
  }

  ghost predicate RequestsDistinct(uploads: map<Id, Upload>) {
    forall u1, u2 | u1 in uploads && u2 in uploads
                    && HasKey(uploads[u2], uploads[u1].user, uploads[u1].idempotencyKey) :: u1 == u2
  }

  ghost predicate TablesOk(hash: Bytes -> string, s: State) {
    && HashesDistinct(s.assets) && RequestsDistinct(s.uploads)
    && (forall a | a in s.assets :: AssetOk(hash, s, a))
    && (forall u | u in s.uploads :: UploadOk(s, u))
  }

  /** Nothing is under way, and the orphans are the objects that no asset owns. */
  ghost predicate AtRest(s: State) {
    && s.calls == map[] && s.drafts == map[] && s.newAssets == map[]
    && s.listed == multiset{} && s.doomed == multiset{}
    && (forall key :: key in s.orphans <==> key in s.objects && NoAssetAt(s.assets, key))
  }

  /** A run starts from any consistent tables, pending rows of whatever origin included. */
  ghost predicate Run(hash: Bytes -> string, trace: seq<State>, steps: seq<Step>) {
    Path(hash, trace, steps) && AtRest(trace[0]) && TablesOk(hash, trace[0])
  }

  const Empty := State(map[], map[], map[], map[], map[], map[], multiset{}, multiset{}, {})

  // ----- Upload entities

  /** A transition of the entity, which builds a new upload, without the idempotency key, and validates it. */
  function Transitioned(
    u: Upload, status: UploadStatus, checksum: Option<string>, assetId: Option<Id>, completedAt: Option<Time>):
    Result<Upload, ()>
  {
    var next := u.(status := status, checksum := checksum, assetId := assetId, completedAt := completedAt,
                   idempotencyKey := None);
    if RowValid(next) then Ok(next) else Err(())
  }

  function StartProcessing(u: Upload): Result<Upload, ()> {
    if u.status.Pending? then Transitioned(u, Processing, None, None, None) else Err(())
  }

  function Complete(u: Upload, checksum: string, asset: Id, now: Time): Result<Upload, ()> {
    if u.status.Processing? then Transitioned(u, Completed, Some(checksum), Some(asset), Some(now)) else Err(())
  }

  function Fail(u: Upload, now: Time): Result<Upload, ()> {
    if u.status.Completed? || u.status.Failed? then Err(()) else Transitioned(u, Failed, None, None, Some(now))
  }

  /**
   * The entity's lifecycle, and what the service's row updates have to do with it: the stored row is the
   * transitioned entity, but keeps the idempotency key that the entity drops.
   */
  lemma RowsFollowTheEntity(u: Upload, checksum: string, size: nat, asset: Id, now: Time)
    requires RowValid(u) && (u.checksum.Some? ==> u.status.Completed?)
    ensures StartProcessing(u).Ok? <==> u.status.Pending?
    ensures Complete(u, checksum, asset, now).Ok? <==> u.status.Processing?
    ensures Fail(u, now).Ok? <==> u.status.Pending? || u.status.Processing?
    ensures StartProcessing(u).Ok? ==> StartProcessing(u).value == u.(status := Processing, idempotencyKey := None)
    ensures Fail(u, now).Ok? ==> Fail(u, now).value == FailedUpload(u, now).(idempotencyKey := None)
    ensures Complete(u, checksum, asset, now).Ok? ==>
              Complete(u, checksum, asset, now).value.(size := size) ==
                CompletedUpload(u, checksum, size, asset, now).(idempotencyKey := None)
  {
  }
}
