/**
 * The upload service, its repositories, the request's session and the abandoned-upload cleanup. A request is
 * proved to be a path of `ContentStore`, and what it leaves to depend on the bytes received alone.
 */
module UploadBackend {
  import opened Wrappers
  import opened FileValidation
  import opened Multipart
  import opened Streaming
  import opened ContentStore
  import opened ContentTheorems

  datatype UploadError =
    | Invalid(reason: ValidationError)
    | TooLarge
    | StorageError
    | AlreadyExists

  datatype Settings = Settings(allowed: seq<string>, maxFileSize: nat)

  /** What the service says of a content: the first check that it fails, if any. */
  function Refusal(content: Bytes, declared: string, settings: Settings): Option<UploadError> {
    match ValidateContent(content, declared, settings.allowed)
    case Some(e) => Some(Invalid(e))
    case None => if |content| > settings.maxFileSize then Some(TooLarge) else None
  }

  /** The rows that are visible, and those that open sessions have written. */
  class UploadRepository {
    var rows: map<Id, Upload>
    var drafts: map<Id, Upload>
  }

  class AssetRepository {
    var rows: map<Id, Asset>
    var created: map<Id, Asset>
  }

  /** History that no object stores. */
  class Ledger {
    ghost var calls: map<Id, Phase>
    ghost var listed: multiset<Id>
    ghost var doomed: multiset<Id>
    ghost var orphans: set<Key>
  }

  ghost function Snapshot(uploads: UploadRepository, assets: AssetRepository, store: ObjectStore, ledger: Ledger): State
    reads uploads, assets, store, ledger
  {
    State(uploads.rows, assets.rows, uploads.drafts, assets.created, store.objects,
          ledger.calls, ledger.listed, ledger.doomed, ledger.orphans)
  }

  // ----- What a request leaves

  /** The visible effect of an upload whose content is linked to this asset. */
  function Published(
    s: State, id: Id, user: Id, storageKey: Key, key: Option<string>, checksum: string, size: nat, asset: Id,
    now: Time): State
  {
    s.(uploads := s.uploads[id :=
         CompletedUpload(NewUpload(user, storageKey, key, now), checksum, size, asset, now)])
  }

  /**
   * What a request over a store that does not fail leaves: nothing at all of a refused content; of a known
   * content one completed row, which links to its asset; of a new one also that asset and its object; and of one
   * whose insert fails the object alone, as an orphan.
   */
  ghost predicate Left(
    hash: Bytes -> string, s: State, content: Bytes, refusal: Option<UploadError>, reachable: bool,
    id: Id, user: Id, storageKey: Key, key: Option<string>, newAsset: Id, now: Time, s': State,
    r: Result<Id, UploadError>)
  {
    var checksum, size := hash(content), |content|;
    if refusal.Some? then r == Err(refusal.value) && s' == s
    else if HashTaken(s.assets, checksum) then
      r == Ok(id) && exists a | a in s.assets :: s.assets[a].sha256 == checksum
                                && s' == Published(s, id, user, storageKey, key, checksum, size, a, now)
    else if reachable then
      r == Ok(id)
      && s' == Published(s, id, user, storageKey, key, checksum, size, newAsset, now).(
                 assets := s.assets[newAsset := Asset(user, checksum, size, storageKey)],
                 objects := s.objects[storageKey := content])
    else
      r == Err(AlreadyExists)
      && s' == s.(objects := s.objects[storageKey := content], orphans := s.orphans + {storageKey})
  }

  /** How the resolution of a stored content comes out over a store that does not fail. */
  ghost function Resolved(
    hash: Bytes -> string, s: State, call: Id, found: Option<Id>, newAsset: Id, reachable: bool): State
    requires At(s, call, call in s.calls && s.calls[call].Stored?)
  {
    var next := Found(s, call, found);
    if found.Some? then DuplicateDropped(next, call, true) else AssetCreated(hash, next, call, newAsset, reachable)
  }

  /** And how its call is left. */
  ghost function LinkedUp(
    hash: Bytes -> string, s: State, call: Id, found: Option<Id>, newAsset: Id, reachable: bool, now: Time): State
    requires At(s, call, call in s.calls && s.calls[call].Stored?)
  {
    var resolved := Resolved(hash, s, call, found, newAsset, reachable);
    if At(resolved, call, true) && resolved.calls[call].Linked? then Finished(hash, resolved, call, now) else resolved
  }

  /** The end of a session: completed, it commits; otherwise it rolls back. */
  function Ended(s: State, call: Id): State
    requires call in s.calls
  {
    if At(s, call, true) && s.calls[call].Done? then Committed(s, call) else RolledBack(s, call)
  }

  /** A call whose session is still open: it has completed its upload, or has raised. */
  ghost predicate Open(s: State, call: Id, id: Id, r: Result<Id, UploadError>) {
    && At(s, call, true) && s.calls[call].upload == id
    && (r.Ok? ==> && r.value == id && s.calls[call].Done?
                  && s.drafts[id].assetId == Some(s.calls[call].asset))
    && (r.Err? ==> s.calls[call].Raised?)
  }

  /** The state of an upload whose content is stored. */
  function Uploading(
    s: State, call: Id, user: Id, key: Option<string>, id: Id, storageKey: Key, now: Time, content: Bytes): (r: State)
    ensures At(r, call, true) && r.calls[call] == Stored(id, content)
  {
    Received(Registered(s, call, user, key, id, storageKey, now), call, content)
  }

  lemma RejectionLeavesNothing(
    hash: Bytes -> string, s: State, call: Id, user: Id, key: Option<string>, id: Id, storageKey: Key, now: Time,
    content: Bytes, e: UploadError, newAsset: Id, reachable: bool)
    requires call !in s.calls && id !in s.drafts
    ensures var s' := Rejected(Registered(s, call, user, key, id, storageKey, now), call, now);
            && Open(s', call, id, Err(e)) && Ended(s', call) == s
            && Left(hash, s, content, Some(e), reachable, id, user, storageKey, key, newAsset, now, Ended(s', call),
                    Err(e))
  {
    var rejected := Rejected(Registered(s, call, user, key, id, storageKey, now), call, now);
    assert rejected.calls - {call} == s.calls && rejected.drafts - {id} == s.drafts;
  }

  lemma KnownContentIsPublished(
    hash: Bytes -> string, s: State, call: Id, user: Id, key: Option<string>, id: Id, storageKey: Key, now: Time,
    content: Bytes, a: Id, newAsset: Id, reachable: bool)
    requires call !in s.calls && id !in s.drafts && storageKey !in s.objects && a !in s.newAssets
    ensures var stored := Uploading(s, call, user, key, id, storageKey, now, content);
            var linked := LinkedUp(hash, stored, call, Some(a), newAsset, reachable, now);
            call in linked.calls
            && Ended(linked, call) == Published(s, id, user, storageKey, key, hash(content), |content|, a, now)
  {
    var stored := Uploading(s, call, user, key, id, storageKey, now, content);
    var resolved := DuplicateDropped(Found(stored, call, Some(a)), call, true);
    var finished := Finished(hash, resolved, call, now);
    assert finished == LinkedUp(hash, stored, call, Some(a), newAsset, reachable, now);
    assert finished.objects == s.objects;
    assert finished.calls - {call} == s.calls && finished.drafts - {id} == s.drafts;
    assert finished.newAssets - {a} == s.newAssets;
  }

  lemma NewContentIsPublished(
    hash: Bytes -> string, s: State, call: Id, user: Id, key: Option<string>, id: Id, storageKey: Key, now: Time,
    content: Bytes, a: Id)
    requires call !in s.calls && id !in s.drafts && a !in s.newAssets && !HashTaken(s.assets, hash(content))
    ensures var stored := Uploading(s, call, user, key, id, storageKey, now, content);
            var linked := LinkedUp(hash, stored, call, None, a, true, now);
            call in linked.calls
            && Ended(linked, call) == Published(s, id, user, storageKey, key, hash(content), |content|, a, now).(
                 assets := s.assets[a := Asset(user, hash(content), |content|, storageKey)],
                 objects := s.objects[storageKey := content])
  {
    var stored := Uploading(s, call, user, key, id, storageKey, now, content);
    var resolved := AssetCreated(hash, Found(stored, call, None), call, a, true);
    assert resolved.newAssets == s.newAssets[a := Asset(user, hash(content), |content|, storageKey)];
    var finished := Finished(hash, resolved, call, now);
    assert finished == LinkedUp(hash, stored, call, None, a, true, now);
    assert finished.calls - {call} == s.calls && finished.drafts - {id} == s.drafts;
    assert finished.newAssets - {a} == s.newAssets && finished.newAssets == resolved.newAssets;
  }

  lemma UnreachableAssetLeavesAnOrphan(
    hash: Bytes -> string, s: State, call: Id, user: Id, key: Option<string>, id: Id, storageKey: Key, now: Time,
    content: Bytes, a: Id)
    requires call !in s.calls && id !in s.drafts
    ensures var stored := Uploading(s, call, user, key, id, storageKey, now, content);
            var linked := LinkedUp(hash, stored, call, None, a, false, now);
            call in linked.calls
            && Ended(linked, call)
                 == s.(objects := s.objects[storageKey := content], orphans := s.orphans + {storageKey})
  {
    var stored := Uploading(s, call, user, key, id, storageKey, now, content);
    var raised := AssetCreated(hash, Found(stored, call, None), call, a, false);
    assert raised == LinkedUp(hash, stored, call, None, a, false, now);
    assert raised.calls - {call} == s.calls && raised.drafts - {id} == s.drafts;
  }

  lemma LinkingLeaves(
    hash: Bytes -> string, s: State, call: Id, user: Id, key: Option<string>, id: Id, storageKey: Key, now: Time,
    content: Bytes, found: Option<Id>, newAsset: Id, reachable: bool)
    requires call !in s.calls && FreshUpload(s, id, storageKey) && newAsset !in s.newAssets
    requires s.assets.Keys !! s.newAssets.Keys
    requires Enabled(hash, Uploading(s, call, user, key, id, storageKey, now, content), FindStep(call, found))
    ensures var stored := Uploading(s, call, user, key, id, storageKey, now, content);
            var linked := LinkedUp(hash, stored, call, found, newAsset, reachable, now);
            call in linked.calls
            && Left(hash, s, content, None, reachable, id, user, storageKey, key, newAsset, now, Ended(linked, call),
                    if found.Some? || reachable then Ok(id) else Err(AlreadyExists))
  {
    assert Uploading(s, call, user, key, id, storageKey, now, content).assets == s.assets;
    if found.Some? {
      KnownContentIsPublished(hash, s, call, user, key, id, storageKey, now, content, found.value, newAsset, reachable);
      assert HashTaken(s.assets, hash(content));
    } else if reachable {
      NewContentIsPublished(hash, s, call, user, key, id, storageKey, now, content, newAsset);
    } else {
      UnreachableAssetLeavesAnOrphan(hash, s, call, user, key, id, storageKey, now, content, newAsset);
    }
  }

  lemma ReceivingIsAPath(hash: Bytes -> string, s: State, call: Id, content: Bytes, now: Time)
    requires At(s, call, true) && s.calls[call].Started?
    ensures Path(hash, [s, Received(s, call, content)], [StoreStep(call, content)])
    ensures Path(hash, [s, Rejected(s, call, now)], [RejectStep(call, now)])
  {
  }

  lemma DroppingIsAPath(hash: Bytes -> string, s: State, call: Id, asset: Id, deleted: bool)
    requires At(s, call, true) && s.calls[call].Stored? && Enabled(hash, s, FindStep(call, Some(asset)))
    ensures var found := Found(s, call, Some(asset));
            Path(hash, [s, found, DuplicateDropped(found, call, deleted)],
                 [FindStep(call, Some(asset)), DropDuplicateStep(call, deleted)])
    ensures var p := s.calls[call];
            DuplicateDropped(Found(s, call, Some(asset)), call, deleted).calls ==
              s.calls[call := Linked(p.upload, p.content, asset)]
  {
  }

  lemma CreatingIsAPath(hash: Bytes -> string, s: State, call: Id, newAsset: Id, reachable: bool)
    requires At(s, call, true) && s.calls[call].Stored? && Enabled(hash, s, FindStep(call, None))
    requires newAsset !in s.assets && newAsset !in s.newAssets
    requires !HashTaken(s.newAssets, hash(s.calls[call].content))
    ensures var found := Found(s, call, None);
            Path(hash, [s, found, AssetCreated(hash, found, call, newAsset, reachable)],
                 [FindStep(call, None), CreateAssetStep(call, newAsset, reachable)])
    ensures var p := s.calls[call];
            AssetCreated(hash, Found(s, call, None), call, newAsset, reachable).calls ==
              s.calls[call := if reachable then Linked(p.upload, p.content, newAsset) else Raised(p.upload)]
  {
  }

  class UploadService {
    const uploads: UploadRepository
    const assets: AssetRepository
    const store: ObjectStore
    const ledger: Ledger
    const settings: Settings
    const hash: Bytes -> string

    constructor (uploads: UploadRepository, assets: AssetRepository, store: ObjectStore, ledger: Ledger,
                 settings: Settings, hash: Bytes -> string)
      ensures this.uploads == uploads && this.assets == assets && this.store == store && this.ledger == ledger
      ensures this.settings == settings && this.hash == hash
    {
      this.uploads, this.assets, this.store, this.ledger := uploads, assets, store, ledger;
      this.settings, this.hash := settings, hash;
    }

    ghost function Now(): State
      reads uploads, assets, store, ledger
    {
      Snapshot(uploads, assets, store, ledger)
    }

    method Lookup(call: Id, user: Id, key: Option<string>, declared: string) returns (found: Option<Id>)
      requires call !in ledger.calls
      modifies ledger
      ensures var step := LookupStep(call, user, key, Allowed(declared, settings.allowed), found);
              Enabled(hash, old(Now()), step) && Now() == Apply(hash, old(Now()), step)
    {
      if exists id | id in uploads.rows :: HasKey(uploads.rows[id], user, key) {
        var id :| id in uploads.rows && HasKey(uploads.rows[id], user, key);
        return Some(id);
      }
      found := None;
      if Allowed(declared, settings.allowed) {
        ledger.calls := ledger.calls[call := Looked(user, key)];
      }
    }

    /**
     * Inserts the pending row, which the unique index on (user, key) may reject, and moves it to processing. The
     * insert does not wait: no other open session has the key.
     */
    method InsertAndStart(call: Id, user: Id, key: Option<string>, id: Id, storageKey: Key, now: Time)
      returns (ok: bool)
      requires call in ledger.calls && ledger.calls[call] == Looked(user, key)
      requires id !in uploads.rows && id !in uploads.drafts && !KeyTaken(uploads.drafts, user, key)
      modifies uploads, ledger
      ensures ok <==> !KeyTaken(old(uploads.rows), user, key)
      ensures ok ==> Now() == Begun(Inserted(old(Now()), call, id, storageKey, now), call)
      ensures !ok ==> Now() == Inserted(old(Now()), call, id, storageKey, now)
    {
      ok := !(exists other | other in uploads.rows :: HasKey(uploads.rows[other], user, key));
      if !ok {
        ledger.calls := ledger.calls - {call};
        return;
      }
      uploads.drafts := uploads.drafts[id := NewUpload(user, storageKey, key, now)];
      ledger.calls := ledger.calls[call := Created(id)];
      uploads.drafts := uploads.drafts[id := uploads.drafts[id].(status := Processing)];
      ledger.calls := ledger.calls[call := Started(id)];
    }

    /** Writes the failed state after a refused content or a failed store; the exception is then raised again. */
    method FailUpload(call: Id, id: Id, now: Time)
      requires call in ledger.calls && ledger.calls[call] == Started(id) && id in uploads.drafts
      modifies uploads, ledger
      ensures Now() == Rejected(old(Now()), call, now)
    {
      uploads.drafts := uploads.drafts[id := FailedUpload(uploads.drafts[id], now)];
      ledger.calls := ledger.calls[call := Raised(id)];
    }

    /** Validates the stream and stores it while hashing; the digest is taken of the bytes received. */
    method Receive(stream: ChunkStream, declared: string, key: Key, uploadId: nat)
      returns (r: Result<(string, nat), UploadError>)
      requires uploadId !in store.open
      modifies stream, store
      ensures var content := old(Concat(stream.rest));
              && (r.Ok? ==> && Refusal(content, declared, settings).None?
                            && r.value == (hash(content), |content|)
                            && store.objects == old(store.objects)[key := content])
              && (r.Err? ==> && store.objects == old(store.objects)
                             && (r.error.Invalid? || r.error.TooLarge? ==>
                                   Refusal(content, declared, settings) == Some(r.error)))
              && (old(store.Reliable()) ==> && store.Reliable() && store.open == old(store.open)
                                            && (r.Ok? <==> Refusal(content, declared, settings).None?)
                                            && (r.Err? ==> Some(r.error) == Refusal(content, declared, settings)))
    {
      var replay := ValidateUploadStream(stream, declared, settings.allowed);
      if replay.Err? {
        return Err(Invalid(replay.error));
      }
      var tee := new HashingTee(replay.value, settings.maxFileSize);
      var stored, _, _ := store.UploadStream(key, tee, uploadId);
      if stored.Err? {
        return Err(if stored.error.FileTooLarge? then TooLarge else StorageError);
      }
      var digest := tee.HexDigest(hash);
      r := Ok((digest, tee.sizeBytes));
    }

    method FindByHash(call: Id, id: Id, ghost content: Bytes, checksum: string) returns (found: Option<Id>)
      requires call in ledger.calls && ledger.calls[call] == Stored(id, content) && id in uploads.drafts
      requires checksum == hash(content)
      modifies ledger
      ensures Enabled(hash, old(Now()), FindStep(call, found)) && Now() == Found(old(Now()), call, found)
    {
      found := None;
      if exists a | a in assets.rows :: assets.rows[a].sha256 == checksum {
        var a :| a in assets.rows && assets.rows[a].sha256 == checksum;
        found := Some(a);
      }
      ledger.calls := ledger.calls[call :=
        if found.Some? then Matched(id, content, found.value) else Missed(id, content)];
    }

    /** Removes the object just written for a content that already has an asset; a failure is ignored. */
    method DropDuplicate(call: Id, id: Id, ghost content: Bytes, existing: Id) returns (deleted: bool)
      requires call in ledger.calls && ledger.calls[call] == Matched(id, content, existing) && id in uploads.drafts
      modifies store, ledger
      ensures Now() == DuplicateDropped(old(Now()), call, deleted)
      ensures store.open == old(store.open) && (old(store.Reliable()) ==> deleted && store.Reliable())
    {
      deleted := store.Delete(uploads.drafts[id].storageKey);
      ledger.calls := ledger.calls[call := Linked(id, content, existing)];
      if !deleted {
        ledger.orphans := ledger.orphans + {uploads.drafts[id].storageKey};
      }
    }

    /** Inserts the asset; the unique index on the hash rejects a second one, and the exception is raised. */
    method CreateAsset(
      call: Id, id: Id, ghost content: Bytes, asset: Id, sha256: string, size: nat, reachable: bool)
      returns (ok: bool)
      requires call in ledger.calls && ledger.calls[call] == Missed(id, content) && id in uploads.drafts
      requires sha256 == hash(content) && size == |content|
      requires asset !in assets.rows && asset !in assets.created && !HashTaken(assets.created, sha256)
      modifies assets, ledger
      ensures Now() == AssetCreated(hash, old(Now()), call, asset, reachable)
      ensures ok <==> reachable && !HashTaken(old(assets.rows), sha256)
    {
      var upload := uploads.drafts[id];
      ok := reachable && !(exists a | a in assets.rows :: assets.rows[a].sha256 == sha256);
      if ok {
        assets.created := assets.created[asset := Asset(upload.user, sha256, size, upload.storageKey)];
        ledger.calls := ledger.calls[call := Linked(id, content, asset)];
      } else {
        ledger.calls := ledger.calls[call := Raised(id)];
        ledger.orphans := ledger.orphans + {upload.storageKey};
      }
    }

    /** Resolves the asset of a stored content: the known one, whose duplicate object is dropped, or a new one. */
    method ResolveAsset(
      call: Id, id: Id, ghost content: Bytes, checksum: string, size: nat, newAsset: Id, reachable: bool)
      returns (r: Option<Id>, ghost found: Option<Id>, ghost trace: seq<State>, ghost steps: seq<Step>)
      requires call in ledger.calls && ledger.calls[call] == Stored(id, content) && id in uploads.drafts
      requires checksum == hash(content) && size == |content|
      requires newAsset !in assets.rows && newAsset !in assets.created && !HashTaken(assets.created, checksum)
      modifies assets, store, ledger
      ensures Path(hash, trace, steps) && trace[0] == old(Now()) && trace[|steps|] == Now()
      ensures Enabled(hash, old(Now()), FindStep(call, found))
      ensures r == if found.None? && reachable then Some(newAsset) else found
      ensures ledger.calls == old(ledger.calls)[call :=
                if r.Some? then Linked(id, content, r.value) else Raised(id)]
      ensures uploads.rows == old(uploads.rows) && uploads.drafts == old(uploads.drafts)
      ensures assets.rows == old(assets.rows)
      ensures old(store.Reliable()) ==>
                store.Reliable() && Now() == Resolved(hash, old(Now()), call, found, newAsset, reachable)
    {
      ghost var before := Now();
      var existing := FindByHash(call, id, content, checksum);
      found := existing;
      ghost var between := Now();
      if existing.Some? {
        var deleted := DropDuplicate(call, id, content, existing.value);
        DroppingIsAPath(hash, before, call, existing.value, deleted);
        r := existing;
        trace, steps := [before, between, Now()], [FindStep(call, found), DropDuplicateStep(call, deleted)];
      } else {
        CreatingIsAPath(hash, before, call, newAsset, reachable);
        var ok := CreateAsset(call, id, content, newAsset, checksum, size, reachable);
        r := if ok then Some(newAsset) else None;
        trace := [before, between, Now()];
        steps := [FindStep(call, found), CreateAssetStep(call, newAsset, reachable)];
      }
    }

    method Complete(call: Id, id: Id, ghost content: Bytes, asset: Id, checksum: string, size: nat, now: Time)
      requires call in ledger.calls && ledger.calls[call] == Linked(id, content, asset) && id in uploads.drafts
      requires checksum == hash(content) && size == |content|
      modifies uploads, ledger
      ensures Now() == Finished(hash, old(Now()), call, now)
    {
      uploads.drafts := uploads.drafts[id := CompletedUpload(uploads.drafts[id], checksum, size, asset, now)];
      ledger.calls := ledger.calls[call := Done(id, content, asset)];
    }

    /** Receives the content of a started upload and stores it, or fails the upload. */
    method StoreContent(call: Id, id: Id, stream: ChunkStream, declared: string, uploadId: nat, now: Time)
      returns (r: Result<(string, nat), UploadError>, ghost trace: seq<State>, ghost steps: seq<Step>)
      requires call in ledger.calls && ledger.calls[call] == Started(id)
      requires id in uploads.drafts && uploadId !in store.open
      modifies stream, uploads, store, ledger
      ensures Path(hash, trace, steps) && trace[0] == old(Now()) && trace[|steps|] == Now()
      ensures var content := old(Concat(stream.rest));
              && (r.Ok? ==> && r.value == (hash(content), |content|)
                            && Now() == Received(old(Now()), call, content))
              && (r.Err? ==> Now() == Rejected(old(Now()), call, now))
              && (old(store.Reliable()) ==> && store.Reliable()
                                            && (r.Ok? <==> Refusal(content, declared, settings).None?)
                                            && (r.Err? ==> Some(r.error) == Refusal(content, declared, settings)))
    {
      ghost var content, before := Concat(stream.rest), Now();
      r := Receive(stream, declared, uploads.drafts[id].storageKey, uploadId);
      ReceivingIsAPath(hash, before, call, content, now);
      if r.Ok? {
        ledger.calls := ledger.calls[call := Stored(id, content)];
        trace, steps := [before, Now()], [StoreStep(call, content)];
      } else {
        FailUpload(call, id, now);
        trace, steps := [before, Now()], [RejectStep(call, now)];
      }
    }

    /** The last steps of an upload whose content is stored. */
    method LinkContent(
      call: Id, id: Id, ghost content: Bytes, checksum: string, size: nat, newAsset: Id, reachable: bool, now: Time)
      returns (r: Option<Id>, ghost found: Option<Id>, ghost trace: seq<State>, ghost steps: seq<Step>)
      requires call in ledger.calls && ledger.calls[call] == Stored(id, content) && id in uploads.drafts
      requires checksum == hash(content) && size == |content|
      requires newAsset !in assets.rows && newAsset !in assets.created && !HashTaken(assets.created, checksum)
      modifies uploads, assets, store, ledger
      ensures Path(hash, trace, steps) && trace[0] == old(Now()) && trace[|steps|] == Now()
      ensures Enabled(hash, old(Now()), FindStep(call, found))
      ensures r == if found.None? && reachable then Some(newAsset) else found
      ensures ledger.calls == old(ledger.calls)[call := if r.Some? then Done(id, content, r.value) else Raised(id)]
      ensures uploads.rows == old(uploads.rows) && id in uploads.drafts
      ensures r.Some? ==> uploads.drafts[id].assetId == r
      ensures assets.rows == old(assets.rows)
      ensures old(store.Reliable()) ==>
                Now() == LinkedUp(hash, old(Now()), call, found, newAsset, reachable, now)
    {
      r, found, trace, steps := ResolveAsset(call, id, content, checksum, size, newAsset, reachable);
      if r.Some? {
        PathGrows(hash, trace, steps, CompleteStep(call, now));
        Complete(call, id, content, r.value, checksum, size, now);
        trace, steps := trace + [Now()], steps + [CompleteStep(call, now)];
      }
    }

    /** `process_upload` from the resolution of the asset on. */
    method ProcessStored(
      ghost s0: State, call: Id, user: Id, key: Option<string>, id: Id, storageKey: Key, ghost content: Bytes,
      checksum: string, size: nat, newAsset: Id, reachable: bool, now: Time)
      returns (r: Result<Id, UploadError>, ghost trace: seq<State>, ghost steps: seq<Step>)
      requires call !in s0.calls && FreshUpload(s0, id, storageKey)
      requires Now() == Uploading(s0, call, user, key, id, storageKey, now, content)
      requires checksum == hash(content) && size == |content|
      requires newAsset !in s0.assets && newAsset !in s0.newAssets && s0.assets.Keys !! s0.newAssets.Keys
      requires !HashTaken(s0.newAssets, checksum)
      modifies uploads, assets, store, ledger
      ensures Path(hash, trace, steps) && trace[0] == old(Now()) && trace[|steps|] == Now()
      ensures Open(Now(), call, id, r)
      ensures uploads.rows == old(uploads.rows) && assets.rows == old(assets.rows)
      ensures old(store.Reliable()) ==>
                Left(hash, s0, content, None, reachable, id, user, storageKey, key, newAsset, now,
                     Ended(Now(), call), r)
    {
      var linked;
      ghost var found;
      linked, found, trace, steps := LinkContent(call, id, content, checksum, size, newAsset, reachable, now);
      r := if linked.Some? then Ok(id) else Err(AlreadyExists);
      assert Open(Now(), call, id, r);
      LinkingLeaves(hash, s0, call, user, key, id, storageKey, now, content, found, newAsset, reachable);
    }

    /**
     * `process_upload` from the validation of the body on. Nothing of it is visible yet, and it leaves its
     * session to be committed or, after an exception, rolled back.
     */
    method ProcessStarted(
      ghost s0: State, call: Id, user: Id, key: Option<string>, id: Id, storageKey: Key, declared: string,
      stream: ChunkStream, uploadId: nat, newAsset: Id, reachable: bool, now: Time)
      returns (r: Result<Id, UploadError>, ghost trace: seq<State>, ghost steps: seq<Step>)
      requires call !in s0.calls && FreshUpload(s0, id, storageKey) && uploadId !in store.open
      requires Now() == Registered(s0, call, user, key, id, storageKey, now)
      requires newAsset !in s0.assets && newAsset !in s0.newAssets && s0.assets.Keys !! s0.newAssets.Keys
      requires !HashTaken(s0.newAssets, hash(Concat(stream.rest)))
      modifies stream, uploads, assets, store, ledger
      ensures Path(hash, trace, steps) && trace[0] == old(Now()) && trace[|steps|] == Now()
      ensures Open(Now(), call, id, r)
      ensures uploads.rows == old(uploads.rows) && assets.rows == old(assets.rows)
      ensures old(store.Reliable()) ==>
                var content := old(Concat(stream.rest));
                Left(hash, s0, content, Refusal(content, declared, settings), reachable, id, user, storageKey, key,
                     newAsset, now, Ended(Now(), call), r)
    {
      ghost var content := Concat(stream.rest);
      var stored;
      stored, trace, steps := StoreContent(call, id, stream, declared, uploadId, now);
      if stored.Err? {
        r := Err(stored.error);
        RejectionLeavesNothing(hash, s0, call, user, key, id, storageKey, now, content, r.error, newAsset, reachable);
        return;
      }
      ghost var trace', steps';
      r, trace', steps' := ProcessStored(s0, call, user, key, id, storageKey, content, stored.value.0, stored.value.1,
                                         newAsset, reachable, now);
      PathsJoin(hash, trace, steps, trace', steps');
      trace, steps := trace + trace'[1..], steps + steps';
    }

    /** The insert and the start of an upload under a new key, as a path from the lookup on. */
    method Register(ghost s0: State, call: Id, user: Id, key: Option<string>, id: Id, storageKey: Key, now: Time)
      returns (ghost trace: seq<State>, ghost steps: seq<Step>)
      requires call !in s0.calls && FreshUpload(s0, id, storageKey)
      requires !KeyTaken(s0.uploads, user, key) && !KeyTaken(s0.drafts, user, key)
      requires Now() == Goto(s0, call, Looked(user, key))
      modifies uploads, ledger
      ensures Path(hash, trace, steps) && trace[0] == s0 && trace[|steps|] == Now()
      ensures Now() == Registered(s0, call, user, key, id, storageKey, now)
    {
      RegistrationEffect(s0, call, user, key, id, storageKey, now);
      trace, steps := RegistrationPath(hash, s0, call, user, key, id, storageKey, now);
      var inserted := InsertAndStart(call, user, key, id, storageKey, now);
    }

    /** `process_upload` of an allowed type under a new key, from the insert on. */
    method ProcessNew(
      ghost s0: State, call: Id, user: Id, key: Option<string>, declared: string, stream: ChunkStream,
      id: Id, storageKey: Key, uploadId: nat, newAsset: Id, reachable: bool, now: Time)
      returns (r: Result<Id, UploadError>, ghost trace: seq<State>, ghost steps: seq<Step>)
      requires call !in s0.calls && FreshUpload(s0, id, storageKey) && uploadId !in store.open
      requires !KeyTaken(s0.uploads, user, key) && !KeyTaken(s0.drafts, user, key)
      requires Now() == Goto(s0, call, Looked(user, key))
      requires newAsset !in s0.assets && newAsset !in s0.newAssets && s0.assets.Keys !! s0.newAssets.Keys
      requires !HashTaken(s0.newAssets, hash(Concat(stream.rest)))
      modifies stream, uploads, assets, store, ledger
      ensures Path(hash, trace, steps) && trace[0] == s0 && trace[|steps|] == Now()
      ensures Open(Now(), call, id, r)
      ensures uploads.rows == s0.uploads && assets.rows == s0.assets
      ensures old(store.Reliable()) ==>
                var content := old(Concat(stream.rest));
                Left(hash, s0, content, Refusal(content, declared, settings), reachable, id, user, storageKey, key,
                     newAsset, now, Ended(Now(), call), r)
    {
      ghost var trace0, steps0 := Register(s0, call, user, key, id, storageKey, now);
      r, trace, steps :=
        ProcessStarted(s0, call, user, key, id, storageKey, declared, stream, uploadId, newAsset, reachable, now);
      PathsJoin(hash, trace0, steps0, trace, steps);
      trace, steps := trace0 + trace[1..], steps0 + steps;
    }

    /**
     * `process_upload`, uninterrupted: a path of the protocol. A known key gives its upload, and a type that is
     * not allowed raises, before anything is written; otherwise the session is left completed or raised.
     */
    method ProcessUpload(
      call: Id, user: Id, key: Option<string>, declared: string, stream: ChunkStream,
      id: Id, storageKey: Key, uploadId: nat, newAsset: Id, reachable: bool, now: Time)
      returns (r: Result<Id, UploadError>, active: bool, ghost trace: seq<State>, ghost steps: seq<Step>)
      requires call !in ledger.calls && uploadId !in store.open && FreshUpload(Now(), id, storageKey)
      requires newAsset !in assets.rows && newAsset !in assets.created && assets.rows.Keys !! assets.created.Keys
      requires !KeyTaken(uploads.drafts, user, key) && !HashTaken(assets.created, hash(Concat(stream.rest)))
      modifies stream, uploads, assets, store, ledger
      ensures Path(hash, trace, steps) && trace[0] == old(Now()) && trace[|steps|] == Now()
      ensures active <==> !KeyTaken(old(uploads.rows), user, key) && Allowed(declared, settings.allowed)
      ensures KeyTaken(old(uploads.rows), user, key) ==>
                && r.Ok? && r.value in old(uploads.rows) && HasKey(old(uploads.rows)[r.value], user, key)
                && Now() == old(Now())
      ensures !KeyTaken(old(uploads.rows), user, key) && !Allowed(declared, settings.allowed) ==>
                Now() == old(Now()) && r == Err(Invalid(MimeTypeNotAllowed(NormalizeContentType(declared))))
      ensures active ==>
                && Open(Now(), call, id, r)
                && uploads.rows == old(uploads.rows) && assets.rows == old(assets.rows)
                && (old(store.Reliable()) ==>
                      var content := old(Concat(stream.rest));
                      Left(hash, old(Now()), content, Refusal(content, declared, settings), reachable, id, user,
                           storageKey, key, newAsset, now,
                           Ended(Now(), call), r))
    {
      ghost var s0 := Now();
      var known := Lookup(call, user, key, declared);
      active := known.None? && Allowed(declared, settings.allowed);
      if !active {
        trace := [s0, s0];
        steps := [LookupStep(call, user, key, Allowed(declared, settings.allowed), known)];
        r := if known.Some? then Ok(known.value)
             else Err(Invalid(MimeTypeNotAllowed(NormalizeContentType(declared))));
        return;
      }
      r, trace, steps :=
        ProcessNew(s0, call, user, key, declared, stream, id, storageKey, uploadId, newAsset, reachable, now);
    }
  }

  lemma EndIsAStep(hash: Bytes -> string, s: State, call: Id, id: Id, r: Result<Id, UploadError>)
    requires Open(s, call, id, r)
    ensures var step := if r.Ok? then CommitStep(call) else RollbackStep(call);
            Enabled(hash, s, step) && Apply(hash, s, step) == Ended(s, call)
  {
  }

  /** The upload request: the route, and the session that its repositories share. */
  class UploadRequest {
    const service: UploadService
    const uploads: UploadRepository
    const assets: AssetRepository
    const store: ObjectStore
    const ledger: Ledger

    constructor (service: UploadService)
      ensures this.service == service && Valid()
    {
      this.service := service;
      this.uploads, this.assets := service.uploads, service.assets;
      this.store, this.ledger := service.store, service.ledger;
    }

    ghost predicate Valid() {
      uploads == service.uploads && assets == service.assets && store == service.store && ledger == service.ledger
    }

    ghost function Now(): State
      reads uploads, assets, store, ledger
    {
      Snapshot(uploads, assets, store, ledger)
    }

    /** The end of the session when the route has returned: the rows that it has written become visible. */
    method Commit(call: Id, id: Id)
      requires Valid() && Open(Now(), call, id, Ok(id))
      modifies uploads, assets, ledger
      ensures Now() == Committed(old(Now()), call)
    {
      var asset := uploads.drafts[id].assetId.value;
      uploads.rows, uploads.drafts := uploads.rows[id := uploads.drafts[id]], uploads.drafts - {id};
      if asset in assets.created {
        assets.rows := assets.rows[asset := assets.created[asset]];
      }
      assets.created := assets.created - {asset};
      ledger.calls := ledger.calls - {call};
    }

    /** The end of the session when the service or the route has raised: its rows are gone. */
    method Rollback(call: Id, id: Id)
      requires Valid() && At(Now(), call, true) && ledger.calls[call] == Raised(id)
      modifies uploads, ledger
      ensures Now() == RolledBack(old(Now()), call)
    {
      uploads.drafts := uploads.drafts - {id};
      ledger.calls := ledger.calls - {call};
    }

    method End(call: Id, id: Id, r: Result<Id, UploadError>)
      requires Valid() && Open(Now(), call, id, r)
      modifies uploads, assets, ledger
      ensures Now() == Ended(old(Now()), call)
    {
      if r.Ok? {
        Commit(call, id);
      } else {
        Rollback(call, id);
      }
    }

    /**
     * An upload request, uninterrupted: a path of the protocol. An exception leaves nothing visible, whatever the
     * store does; a known key returns its upload and changes nothing; and over a store that does not fail what
     * the request leaves is a function of the received bytes.
     */
    method Post(
      call: Id, user: Id, key: Option<string>, declared: string, stream: ChunkStream,
      id: Id, storageKey: Key, uploadId: nat, newAsset: Id, reachable: bool, now: Time)
      returns (r: Result<Id, UploadError>, ghost trace: seq<State>, ghost steps: seq<Step>)
      requires Valid() && call !in ledger.calls && uploadId !in store.open && FreshUpload(Now(), id, storageKey)
      requires newAsset !in assets.rows && newAsset !in assets.created && assets.rows.Keys !! assets.created.Keys
      requires !KeyTaken(uploads.drafts, user, key) && !HashTaken(assets.created, service.hash(Concat(stream.rest)))
      modifies stream, uploads, assets, store, ledger
      ensures Path(service.hash, trace, steps) && trace[0] == old(Now()) && trace[|steps|] == Now()
      ensures r.Err? ==> uploads.rows == old(uploads.rows) && assets.rows == old(assets.rows)
      ensures KeyTaken(old(uploads.rows), user, key) ==>
                && r.Ok? && r.value in old(uploads.rows) && HasKey(old(uploads.rows)[r.value], user, key)
                && Now() == old(Now())
      ensures old(store.Reliable()) && !KeyTaken(old(uploads.rows), user, key) ==>
                var content := old(Concat(stream.rest));
                Left(service.hash, old(Now()), content, Refusal(content, declared, service.settings), reachable,
                     id, user, storageKey, key, newAsset, now, Now(), r)
    {
      var active;
      r, active, trace, steps := service.ProcessUpload(
        call, user, key, declared, stream, id, storageKey, uploadId, newAsset, reachable, now);
      if active {
        ghost var step := if r.Ok? then CommitStep(call) else RollbackStep(call);
        EndIsAStep(service.hash, Now(), call, id, r);
        PathGrows(service.hash, trace, steps, step);
        End(call, id, r);
        trace, steps := trace + [Now()], steps + [step];
      }
    }
  }

  // ----- The cleanup

  /** Rows that the database lets the cleanup fail. */
  predicate Cleanable(s: State, ids: seq<Id>) {
    forall i | 0 <= i < |ids| :: ids[i] in s.uploads && !Refuses(s.uploads[ids[i]])
  }

  /** The same rows with the same assets. */
  predicate SameRows(s: State, s': State) {
    s'.uploads.Keys == s.uploads.Keys && forall u | u in s.uploads :: s'.uploads[u].assetId == s.uploads[u].assetId
  }

  /** One round of the cleanup's loop, and all its rounds. */
  function RowCleaned(s: State, id: Id, now: Time): (r: State)
    requires id in s.uploads && !Refuses(s.uploads[id])
    ensures SameRows(s, r)
  {
    KeyDeleted(RowFailed(s, id, now), id)
  }

  function RowsCleaned(s: State, ids: seq<Id>, now: Time): (r: State)
    requires Cleanable(s, ids)
    ensures SameRows(s, r)
  {
    if ids == [] then s else RowCleaned(RowsCleaned(s, ids[..|ids| - 1], now), ids[|ids| - 1], now)
  }

  lemma SameRowsAreCleanable(s: State, s': State, id: Id)
    requires SameRows(s, s') && id in s.uploads
    ensures id in s'.uploads && (Refuses(s'.uploads[id]) <==> Refuses(s.uploads[id]))
  {
  }

  lemma CleanableGrows(s: State, ids: seq<Id>, n: nat)
    requires n < |ids| && Cleanable(s, ids[..n]) && ids[n] in s.uploads && !Refuses(s.uploads[ids[n]])
    ensures Cleanable(s, ids[..n + 1])
  {
    assert ids[..n + 1] == ids[..n] + [ids[n]];
  }

  lemma RowsCleanedGrows(s: State, ids: seq<Id>, n: nat, now: Time)
    requires n < |ids| && Cleanable(s, ids[..n + 1])
    ensures Cleanable(s, ids[..n]) && ids[n] in s.uploads && !Refuses(s.uploads[ids[n]])
    ensures RowsCleaned(s, ids[..n + 1], now) == RowCleaned(RowsCleaned(s, ids[..n], now), ids[n], now)
  {
    assert ids[..n + 1][..n] == ids[..n];
    assert ids[n] == ids[..n + 1][n];
    assert forall i | 0 <= i < n :: ids[i] == ids[..n + 1][i];
  }

  lemma RoundFailsRow(s: State, id: Id, now: Time, u: Id)
    requires id in s.uploads && !Refuses(s.uploads[id]) && u in s.uploads
    ensures RowCleaned(s, id, now).uploads[u] == if u == id then FailedUpload(s.uploads[u], now) else s.uploads[u]
  {
  }

  lemma LastOf(ids: seq<Id>, u: Id)
    requires ids != []
    ensures ids == ids[..|ids| - 1] + [ids[|ids| - 1]]
    ensures u in ids <==> u in ids[..|ids| - 1] || u == ids[|ids| - 1]
  {
    assert ids == ids[..|ids| - 1] + [ids[|ids| - 1]];
  }

  /** The cleanup fails exactly the listed rows. */
  lemma {:induction false} CleaningFailsRows(s: State, ids: seq<Id>, now: Time, u: Id)
    requires Cleanable(s, ids) && u in s.uploads
    ensures RowsCleaned(s, ids, now).uploads[u] == if u in ids then FailedUpload(s.uploads[u], now) else s.uploads[u]
  {
    if ids != [] {
      var front, last := ids[..|ids| - 1], ids[|ids| - 1];
      CleaningFailsRows(s, front, now, u);
      LastOf(ids, u);
      RoundFailsRow(RowsCleaned(s, front, now), last, now, u);
    }
  }

  lemma CleaningKeepsKeys(s: State, ids: seq<Id>, now: Time, u: Id)
    requires Cleanable(s, ids) && u in s.uploads
    ensures KeyOf(RowsCleaned(s, ids, now), u) == KeyOf(s, u)
  {
    CleaningFailsRows(s, ids, now, u);
  }

  /** The key of one of the rows. */
  predicate IsKeyOf(s: State, ids: seq<Id>, key: Key)
    requires forall i | 0 <= i < |ids| :: ids[i] in s.uploads
  {
    exists id | id in ids :: KeyOf(s, id) == key
  }

  lemma LastKey(s: State, front: seq<Id>, last: Id, key: Key)
    requires (forall i | 0 <= i < |front| :: front[i] in s.uploads) && last in s.uploads
    ensures IsKeyOf(s, front + [last], key) <==> IsKeyOf(s, front, key) || KeyOf(s, last) == key
  {
    assert last in front + [last];
    assert forall id | id in front :: id in front + [last];
  }

  lemma RoundDeletesKey(s: State, u: Id, now: Time, key: Key)
    requires u in s.uploads && !Refuses(s.uploads[u]) && key != ""
    ensures var t := RowCleaned(s, u, now);
            && (key in t.objects <==> key in s.objects && KeyOf(s, u) != key)
            && (key in t.objects ==> t.objects[key] == s.objects[key])
  {
  }

  /** And deletes exactly their keys. */
  lemma {:induction false} CleaningDeletesKeys(s: State, ids: seq<Id>, now: Time, key: Key)
    requires Cleanable(s, ids) && key != ""
    ensures var t := RowsCleaned(s, ids, now);
            && (key in t.objects <==> key in s.objects && !IsKeyOf(s, ids, key))
            && (key in t.objects ==> t.objects[key] == s.objects[key])
  {
    if ids != [] {
      var front, last := ids[..|ids| - 1], ids[|ids| - 1];
      CleaningDeletesKeys(s, front, now, key);
      CleaningKeepsKeys(s, front, now, last);
      RoundDeletesKey(RowsCleaned(s, front, now), last, now, key);
      LastOf(ids, last);
      LastKey(s, front, last, key);
    }
  }

  lemma RoundUnlists(s: State, id: Id, now: Time)
    requires id in s.uploads && !Refuses(s.uploads[id])
    ensures RowCleaned(s, id, now).listed == s.listed - multiset{id}
  {
  }

  lemma TakenAway(listed: multiset<Id>, front: seq<Id>, last: Id)
    ensures listed - multiset(front) - multiset{last} == listed - multiset(front + [last])
  {
    assert multiset(front + [last]) == multiset(front) + multiset{last};
  }

  lemma {:induction false} CleaningUnlists(s: State, ids: seq<Id>, now: Time)
    requires Cleanable(s, ids)
    ensures RowsCleaned(s, ids, now).listed == s.listed - multiset(ids)
  {
    if ids != [] {
      var front, last := ids[..|ids| - 1], ids[|ids| - 1];
      CleaningUnlists(s, front, now);
      TakenAway(s.listed, front, last);
      LastOf(ids, last);
      RoundUnlists(RowsCleaned(s, front, now), last, now);
    }
  }

  lemma LastIsStillListed(s: State, front: seq<Id>, last: Id, now: Time)
    requires Cleanable(s, front) && multiset(front + [last]) <= s.listed
    ensures multiset(front) <= s.listed && last in RowsCleaned(s, front, now).listed
  {
    CleaningUnlists(s, front, now);
    assert multiset(front + [last]) == multiset(front) + multiset{last};
    assert multiset(front + [last])[last] == multiset(front)[last] + 1;
  }

  /** One round of the cleanup on a listed row. */
  lemma RoundIsAPath(hash: Bytes -> string, s: State, u: Id, now: Time)
    requires u in s.uploads && !Refuses(s.uploads[u]) && u in s.listed
    ensures Path(hash, [s, RowFailed(s, u, now), RowCleaned(s, u, now)], [FailRowStep(u, now), DeleteKeyStep(u)])
  {
    var failed := RowFailed(s, u, now);
    assert Enabled(hash, s, FailRowStep(u, now)) && Apply(hash, s, FailRowStep(u, now)) == failed;
    assert u in failed.doomed && u in failed.uploads;
    assert Enabled(hash, failed, DeleteKeyStep(u)) && Apply(hash, failed, DeleteKeyStep(u)) == RowCleaned(s, u, now);
  }

  /** Cleaning listed rows, with nobody in between, is a path of the protocol. */
  lemma {:induction false} CleaningIsAPath(hash: Bytes -> string, s: State, ids: seq<Id>, now: Time)
    returns (trace: seq<State>, steps: seq<Step>)
    requires Cleanable(s, ids) && multiset(ids) <= s.listed
    ensures Path(hash, trace, steps) && trace[0] == s && trace[|steps|] == RowsCleaned(s, ids, now)
  {
    if ids == [] {
      trace, steps := [s], [];
    } else {
      var front, last := ids[..|ids| - 1], ids[|ids| - 1];
      LastOf(ids, last);
      LastIsStillListed(s, front, last, now);
      trace, steps := CleaningIsAPath(hash, s, front, now);
      var t := trace[|steps|];
      RoundIsAPath(hash, t, last, now);
      var trace', steps' := [t, RowFailed(t, last, now), RowCleaned(t, last, now)],
                            [FailRowStep(last, now), DeleteKeyStep(last)];
      PathsJoin(hash, trace, steps, trace', steps');
      trace, steps := trace + trace'[1..], steps + steps';
    }
  }

  /**
   * `cleanup_abandoned_uploads`. Other requests may act between its listing and each of its updates and
   * deletes, so each of those is proved from whatever state it finds.
   */
  class UploadCleanup {
    const uploads: UploadRepository
    const assets: AssetRepository
    const store: ObjectStore
    const ledger: Ledger

    constructor (uploads: UploadRepository, assets: AssetRepository, store: ObjectStore, ledger: Ledger)
      ensures this.uploads == uploads && this.assets == assets && this.store == store && this.ledger == ledger
    {
      this.uploads, this.assets, this.store, this.ledger := uploads, assets, store, ledger;
    }

    ghost function Now(): State
      reads uploads, assets, store, ledger
    {
      Snapshot(uploads, assets, store, ledger)
    }

    /**
     * Fails one listed row, whatever has become of it. The database refuses a failed row that has an asset: the
     * update raises, which is false here, and no row changes.
     */
    method FailRow(id: Id, now: Time) returns (ok: bool)
      requires id in uploads.rows
      modifies uploads, ledger
      ensures ok <==> !Refuses(old(uploads.rows)[id])
      ensures Now() == RowFailed(old(Now()), id, now)
      ensures !ok ==> uploads.rows == old(uploads.rows)
    {
      ok := uploads.rows[id].assetId.None?;
      ledger.listed := ledger.listed - multiset{id};
      if ok {
        uploads.rows := uploads.rows[id := FailedUpload(uploads.rows[id], now)];
        ledger.doomed := ledger.doomed + multiset{id};
      }
    }

    /** Deletes the key of a failed row, unless it has none; false is the exception of the store. */
    method DeleteKey(id: Id) returns (ok: bool)
      requires id in uploads.rows
      modifies store, ledger
      ensures ok ==> Now() == KeyDeleted(old(Now()), id)
      ensures !ok ==> Now() == old(Now())
      ensures old(store.Reliable()) ==> ok && store.Reliable()
    {
      ok := true;
      if uploads.rows[id].storageKey != "" {
        ok := store.Delete(uploads.rows[id].storageKey);
      }
      if ok {
        ledger.doomed := ledger.doomed - multiset{id};
      }
    }

    /** One round of the loop; false when the database or the store raises. */
    method CleanRow(id: Id, now: Time) returns (ok: bool)
      requires id in uploads.rows
      modifies uploads, store, ledger
      ensures ok ==> !Refuses(old(uploads.rows)[id]) && Now() == RowCleaned(old(Now()), id, now)
      ensures !ok ==> Now() == RowFailed(old(Now()), id, now)
      ensures old(store.Reliable()) ==> store.Reliable() && (ok <==> !Refuses(old(uploads.rows)[id]))
    {
      ok := FailRow(id, now);
      if ok {
        ok := DeleteKey(id);
      }
    }

    /** The next round, seen from the state `s` in which the loop began. */
    method CleanNext(ghost s: State, ids: seq<Id>, n: nat, now: Time) returns (ok: bool)
      requires n < |ids| && ids[n] in s.uploads && Cleanable(s, ids[..n])
      requires Now() == RowsCleaned(s, ids[..n], now)
      modifies uploads, store, ledger
      ensures ok ==> Cleanable(s, ids[..n + 1]) && Now() == RowsCleaned(s, ids[..n + 1], now)
      ensures !ok ==> ids[n] in RowsCleaned(s, ids[..n], now).uploads
                      && Now() == RowFailed(RowsCleaned(s, ids[..n], now), ids[n], now)
      ensures old(store.Reliable()) ==> store.Reliable() && (ok <==> !Refuses(s.uploads[ids[n]]))
    {
      SameRowsAreCleanable(s, Now(), ids[n]);
      ok := CleanRow(ids[n], now);
      if ok {
        CleanableGrows(s, ids, n);
        RowsCleanedGrows(s, ids, n, now);
      }
    }

    /**
     * The loop over the uploads that the repository listed, uninterrupted: fails each row, then deletes its
     * key. It stops at the first row that the database refuses to fail, and at the first delete that raises,
     * which is after the row it was for was failed.
     */
    method CleanRows(ids: seq<Id>, now: Time) returns (cleaned: Option<nat>, ghost done: nat)
      requires forall i | 0 <= i < |ids| :: ids[i] in uploads.rows
      modifies uploads, store, ledger
      ensures done <= |ids| && Cleanable(old(Now()), ids[..done])
      ensures cleaned == (if done == |ids| then Some(|ids|) else None)
      ensures done == |ids| ==> Now() == RowsCleaned(old(Now()), ids[..done], now)
      ensures done < |ids| ==> Now() == RowFailed(RowsCleaned(old(Now()), ids[..done], now), ids[done], now)
      ensures old(store.Reliable()) && done < |ids| ==> Refuses(old(uploads.rows)[ids[done]])
    {
      ghost var s := Now();
      var count := 0;
      done := 0;
      while count < |ids|
        invariant done == count <= |ids| && Cleanable(s, ids[..count])
        invariant Now() == RowsCleaned(s, ids[..count], now)
        invariant old(store.Reliable()) ==> store.Reliable()
      {
        var ok := CleanNext(s, ids, count, now);
        if !ok {
          return None, count;
        }
        count := count + 1;
        done := count;
      }
      cleaned := Some(count);
    }
  }
}
