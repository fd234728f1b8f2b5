/**
 * What every run of the content-addressed uploads keeps, when no object is lost or stored twice, and what two
 * sessions that look for one content before either has committed it can do.
 */
module ContentTheorems {
  import opened Wrappers
  import opened FileValidation
  import opened ContentStore

  predicate ByCall(step: Step) {
    !step.ListStep? && !step.FailRowStep? && !step.DeleteKeyStep?
  }

  predicate IsRowStep(step: Step) {
    step.InsertStep? || step.StartStep? || step.RejectStep? || step.CompleteStep?
  }

  predicate IsObjectStep(step: Step) {
    step.StoreStep? || step.DropDuplicateStep?
  }

  predicate IsEnd(step: Step) {
    step.CommitStep? || step.RollbackStep?
  }

  predicate IsQuiet(step: Step) {
    step.LookupStep? || step.FindStep? || step.CreateAssetStep?
  }

  // ----- What each kind of step leaves alone

  predicate RowsOnly(s: State, s': State) {
    && s'.uploads == s.uploads && s'.assets == s.assets && s'.newAssets == s.newAssets
    && s'.objects == s.objects && s'.orphans == s.orphans && s'.listed == s.listed && s'.doomed == s.doomed
  }

  predicate ObjectsOnly(s: State, s': State) {
    && s'.uploads == s.uploads && s'.assets == s.assets && s'.newAssets == s.newAssets
    && s'.drafts == s.drafts && s'.listed == s.listed && s'.doomed == s.doomed
  }

  predicate NewAssetsOnly(s: State, s': State, creates: bool) {
    && s'.uploads == s.uploads && s'.assets == s.assets && s'.drafts == s.drafts
    && s'.objects == s.objects && s'.listed == s.listed && s'.doomed == s.doomed
    && (!creates ==> s'.newAssets == s.newAssets && s'.orphans == s.orphans)
  }

  predicate CleanupOnly(s: State, s': State, fails: bool, deletes: bool) {
    && s'.calls == s.calls && s'.drafts == s.drafts && s'.assets == s.assets
    && s'.newAssets == s.newAssets && s'.orphans == s.orphans
    && (!fails ==> s'.uploads == s.uploads) && (!deletes ==> s'.objects == s.objects)
  }

  predicate Publishes(s: State, s': State, call: Id)
    requires At(s, call, true) && s.calls[call].Done?
  {
    var p := s.calls[call];
    && s'.calls == s.calls - {call} && s'.drafts == s.drafts - {p.upload}
    && s'.uploads == s.uploads[p.upload := s.drafts[p.upload]]
    && s'.assets == (if p.asset in s.newAssets then s.assets[p.asset := s.newAssets[p.asset]] else s.assets)
    && s'.newAssets == s.newAssets - {p.asset}
    && s'.objects == s.objects && s'.orphans == s.orphans && s'.listed == s.listed && s'.doomed == s.doomed
  }

  predicate Drops(s: State, s': State, call: Id)
    requires call in s.calls
  {
    var p := s.calls[call];
    && s'.calls == s.calls - {call} && s'.uploads == s.uploads && s'.assets == s.assets
    && s'.objects == s.objects && s'.listed == s.listed && s'.doomed == s.doomed
    && s'.drafts == (if p.Looked? then s.drafts else s.drafts - {p.upload})
    && s'.newAssets == (if p.Linked? || p.Done? then s.newAssets - {p.asset} else s.newAssets)
  }

  lemma RowStepsFrame(hash: Bytes -> string, s: State, step: Step)
    requires Enabled(hash, s, step) && IsRowStep(step)
    ensures RowsOnly(s, Apply(hash, s, step))
  {
    match step
    case InsertStep(call, id, key, now) => assert Apply(hash, s, step) == Inserted(s, call, id, key, now);
    case StartStep(call) => assert Apply(hash, s, step) == Begun(s, call);
    case RejectStep(call, now) => assert Apply(hash, s, step) == Rejected(s, call, now);
    case CompleteStep(call, now) => assert Apply(hash, s, step) == Finished(hash, s, call, now);
  }

  lemma ObjectStepsFrame(hash: Bytes -> string, s: State, step: Step)
    requires Enabled(hash, s, step) && IsObjectStep(step)
    ensures ObjectsOnly(s, Apply(hash, s, step))
  {
    match step
    case StoreStep(call, content) => assert Apply(hash, s, step) == Received(s, call, content);
    case DropDuplicateStep(call, deleted) => assert Apply(hash, s, step) == DuplicateDropped(s, call, deleted);
  }

  lemma QuietStepsFrame(hash: Bytes -> string, s: State, step: Step)
    requires Enabled(hash, s, step) && IsQuiet(step)
    ensures NewAssetsOnly(s, Apply(hash, s, step), step.CreateAssetStep?)
  {
    match step
    case LookupStep(_, _, _, _, _) =>
    case FindStep(call, found) => assert Apply(hash, s, step) == Found(s, call, found);
    case CreateAssetStep(call, a, ok) => assert Apply(hash, s, step) == AssetCreated(hash, s, call, a, ok);
  }

  lemma CleanupStepsFrame(hash: Bytes -> string, s: State, step: Step)
    requires Enabled(hash, s, step) && !ByCall(step)
    ensures CleanupOnly(s, Apply(hash, s, step), step.FailRowStep?, step.DeleteKeyStep?)
  {
    match step
    case ListStep(batch, _) => assert Apply(hash, s, step) == Listed(s, batch);
    case FailRowStep(id, now) => assert Apply(hash, s, step) == RowFailed(s, id, now);
    case DeleteKeyStep(id) => assert Apply(hash, s, step) == KeyDeleted(s, id);
  }

  /** What each kind of step leaves alone. */
  lemma Frame(hash: Bytes -> string, s: State, step: Step)
    requires Enabled(hash, s, step)
    ensures IsRowStep(step) ==> RowsOnly(s, Apply(hash, s, step))
    ensures IsObjectStep(step) ==> ObjectsOnly(s, Apply(hash, s, step))
    ensures IsQuiet(step) ==> NewAssetsOnly(s, Apply(hash, s, step), step.CreateAssetStep?)
    ensures !ByCall(step) ==> CleanupOnly(s, Apply(hash, s, step), step.FailRowStep?, step.DeleteKeyStep?)
    ensures step.CommitStep? ==> Publishes(s, Apply(hash, s, step), step.call)
    ensures step.RollbackStep? ==> Drops(s, Apply(hash, s, step), step.call)
  {
    if IsRowStep(step) {
      RowStepsFrame(hash, s, step);
    } else if IsObjectStep(step) {
      ObjectStepsFrame(hash, s, step);
    } else if IsQuiet(step) {
      QuietStepsFrame(hash, s, step);
    } else if !ByCall(step) {
      CleanupStepsFrame(hash, s, step);
    } else if step.CommitStep? {
      assert Apply(hash, s, step) == Committed(s, step.call);
    } else {
      assert Apply(hash, s, step) == RolledBack(s, step.call);
    }
  }

  // ----- Rows stay distinct, those of open sessions included

  ghost predicate HashesApart(s: State) {
    && HashesDistinct(s.assets) && HashesDistinct(s.newAssets)
    && forall a, b | a in s.assets && b in s.newAssets :: a != b && s.assets[a].sha256 != s.newAssets[b].sha256
  }

  ghost predicate RequestsApart(s: State) {
    && RequestsDistinct(s.uploads) && RequestsDistinct(s.drafts)
    && forall u, v | u in s.uploads && v in s.drafts ::
         u != v && !HasKey(s.uploads[u], s.drafts[v].user, s.drafts[v].idempotencyKey)
  }

  lemma CreatingKeepsHashes(hash: Bytes -> string, s: State, step: Step)
    requires HashesApart(s) && Enabled(hash, s, step) && step.CreateAssetStep?
    ensures HashesApart(Apply(hash, s, step))
  {
    var s' := AssetCreated(hash, s, step.call, step.newAsset, step.reachable);
    assert Apply(hash, s, step) == s';
    forall a, b | a in s'.assets && b in s'.newAssets
      ensures a != b && s'.assets[a].sha256 != s'.newAssets[b].sha256 {
    }
  }

  lemma CommitKeepsHashes(hash: Bytes -> string, s: State, step: Step)
    requires HashesApart(s) && Enabled(hash, s, step) && step.CommitStep?
    ensures HashesApart(Apply(hash, s, step))
  {
  }

  lemma RollbackKeepsHashes(hash: Bytes -> string, s: State, step: Step)
    requires HashesApart(s) && Enabled(hash, s, step) && step.RollbackStep?
    ensures HashesApart(Apply(hash, s, step))
  {
  }

  lemma UncreatedAssetsStay(hash: Bytes -> string, s: State, step: Step)
    requires Enabled(hash, s, step) && !step.CreateAssetStep? && !IsEnd(step)
    ensures Apply(hash, s, step).assets == s.assets && Apply(hash, s, step).newAssets == s.newAssets
  {
    Frame(hash, s, step);
  }

  lemma VisibleAssetsStay(hash: Bytes -> string, s: State, step: Step)
    requires Enabled(hash, s, step) && !IsEnd(step)
    ensures Apply(hash, s, step).assets == s.assets
  {
    Frame(hash, s, step);
  }

  lemma NextKeepsHashes(hash: Bytes -> string, s: State, step: Step)
    requires HashesApart(s) && Enabled(hash, s, step)
    ensures HashesApart(Apply(hash, s, step))
  {
    if step.CreateAssetStep? {
      CreatingKeepsHashes(hash, s, step);
    } else if step.CommitStep? {
      CommitKeepsHashes(hash, s, step);
    } else if step.RollbackStep? {
      RollbackKeepsHashes(hash, s, step);
    } else {
      UncreatedAssetsStay(hash, s, step);
    }
  }

  /** Two tables with the same rows, as far as the index on requests sees them. */
  predicate SameRequests(rows: map<Id, Upload>, rows': map<Id, Upload>) {
    forall u | u in rows' ::
      u in rows && rows'[u].user == rows[u].user && rows'[u].idempotencyKey == rows[u].idempotencyKey
  }

  lemma SameRequestsStayApart(s: State, s': State)
    requires RequestsApart(s) && SameRequests(s.uploads, s'.uploads) && SameRequests(s.drafts, s'.drafts)
    ensures RequestsApart(s')
  {
  }

  lemma RowStepsKeepRequests(hash: Bytes -> string, s: State, step: Step)
    requires Enabled(hash, s, step) && IsRowStep(step) && !step.InsertStep?
    ensures var s' := Apply(hash, s, step);
            SameRequests(s.uploads, s'.uploads) && SameRequests(s.drafts, s'.drafts)
  {
  }

  lemma FailedRowsKeepRequests(s: State, id: Id, now: Time)
    requires id in s.uploads
    ensures SameRequests(s.uploads, RowFailed(s, id, now).uploads)
  {
  }

  lemma OtherStepsKeepRequests(hash: Bytes -> string, s: State, step: Step)
    requires Enabled(hash, s, step) && !IsRowStep(step) && !step.CommitStep?
    ensures var s' := Apply(hash, s, step);
            SameRequests(s.uploads, s'.uploads) && SameRequests(s.drafts, s'.drafts)
  {
    Frame(hash, s, step);
    if step.FailRowStep? {
      FailedRowsKeepRequests(s, step.row, step.cleanedAt);
      assert Apply(hash, s, step) == RowFailed(s, step.row, step.cleanedAt);
    }
  }

  lemma InsertKeepsRequests(hash: Bytes -> string, s: State, step: Step)
    requires RequestsApart(s) && Enabled(hash, s, step) && step.InsertStep?
    ensures RequestsApart(Apply(hash, s, step))
  {
    var s', p := Inserted(s, step.call, step.newUpload, step.storageKey, step.now), s.calls[step.call];
    assert Apply(hash, s, step) == s';
    if !KeyTaken(s.uploads, p.user, p.key) {
      assert forall u | u in s.uploads :: !HasKey(s.uploads[u], p.user, p.key);
      assert forall v | v in s.drafts :: !HasKey(s.drafts[v], p.user, p.key);
    }
  }

  lemma CommitKeepsRequests(hash: Bytes -> string, s: State, step: Step)
    requires RequestsApart(s) && Enabled(hash, s, step) && step.CommitStep?
    ensures RequestsApart(Apply(hash, s, step))
  {
    var s', id := Committed(s, step.call), s.calls[step.call].upload;
    assert Apply(hash, s, step) == s';
    assert forall u | u in s.uploads :: !HasKey(s.uploads[u], s.drafts[id].user, s.drafts[id].idempotencyKey);
  }

  lemma NextKeepsRequests(hash: Bytes -> string, s: State, step: Step)
    requires RequestsApart(s) && Enabled(hash, s, step)
    ensures RequestsApart(Apply(hash, s, step))
  {
    if step.InsertStep? {
      InsertKeepsRequests(hash, s, step);
    } else if step.CommitStep? {
      CommitKeepsRequests(hash, s, step);
    } else {
      if IsRowStep(step) {
        RowStepsKeepRequests(hash, s, step);
      } else {
        OtherStepsKeepRequests(hash, s, step);
      }
      SameRequestsStayApart(s, Apply(hash, s, step));
    }
  }

  // ----- The content-store invariant

  /** The row of an open session, as far as its call has come. */
  predicate DraftOk(hash: Bytes -> string, u: Upload, p: Phase) {
    && RowValid(u)
    && (p.Created? ==> u.status.Pending?)
    && (p.Started? || p.Stored? || p.Matched? || p.Missed? || p.Linked? ==> u.status.Processing?)
    && (p.Done? ==> u.status.Completed? && u.assetId == Some(p.asset) && u.checksum == Some(hash(p.content)))
  }

  /** The asset of a call is visible, or its session holds it. */
  predicate LinkOk(hash: Bytes -> string, s: State, p: Phase)
    requires (p.Linked? || p.Done?) && p.upload in s.drafts
  {
    if p.asset in s.newAssets then p.asset !in s.assets && s.newAssets[p.asset] == AssetOf(hash, s, p.upload, p.content)
    else p.asset in s.assets && s.assets[p.asset].sha256 == hash(p.content)
  }

  /** What a call under way may count on, whatever the other calls and the cleanup do. */
  predicate CallOk(hash: Bytes -> string, s: State, c: Id)
    requires c in s.calls
  {
    var p := s.calls[c];
    !p.Looked? ==>
      && p.upload in s.drafts && p.upload !in s.uploads && DraftOk(hash, s.drafts[p.upload], p)
      && var key := DraftKey(s, p.upload);
      && key != "" && KeyFree(s.uploads, key) && NoAssetAt(s.assets, key)
      && (p.Created? || p.Started? ==> key !in s.objects)
      && (HoldsObject(s, p) ==> key in s.objects && s.objects[key] == p.content)
      && (p.Matched? ==> p.existing in s.assets && s.assets[p.existing].sha256 == hash(p.content))
      && (p.Linked? || p.Done? ==> LinkOk(hash, s, p))
  }

  /** Two calls work on different rows and under different keys. */
  predicate Distinct(s: State, c1: Id, c2: Id) {
    At(s, c1, true) && At(s, c2, true) ==>
      && s.calls[c1].upload != s.calls[c2].upload
      && DraftKey(s, s.calls[c1].upload) != DraftKey(s, s.calls[c2].upload)
  }

  ghost predicate CallsDistinct(s: State) {
    forall c1, c2 | c1 in s.calls && c2 in s.calls && c1 != c2 :: Distinct(s, c1, c2)
  }

  predicate InCleanup(s: State, u: Id) {
    u in s.listed || u in s.doomed
  }

  /** A visible row that nobody completed, without object and asset. */
  predicate Idle(s: State, u: Id) {
    && u in s.uploads && (s.uploads[u].status.Pending? || s.uploads[u].status.Failed?)
    && s.uploads[u].assetId.None?
    && KeyOf(s, u) !in s.objects && NoAssetAt(s.assets, KeyOf(s, u))
  }

  ghost predicate Inv(hash: Bytes -> string, s: State) {
    && HashesApart(s) && RequestsApart(s) && CallsDistinct(s)
    && (forall a | a in s.assets :: AssetOk(hash, s, a))
    && (forall u | u in s.uploads :: UploadOk(s, u))
    && (forall c | c in s.calls :: CallOk(hash, s, c))
    && (forall u | InCleanup(s, u) :: Idle(s, u))
  }

  /** The part of the invariant about the call, or the row in cleanup, that takes a step. */
  predicate ActorOk(hash: Bytes -> string, s: State, step: Step) {
    && (ByCall(step) && step.call in s.calls ==> CallOk(hash, s, step.call))
    && (step.FailRowStep? || step.DeleteKeyStep? ==> Idle(s, step.row))
  }

  lemma ActorsAreOk(hash: Bytes -> string, s: State, step: Step)
    requires Inv(hash, s) && Enabled(hash, s, step)
    ensures ActorOk(hash, s, step)
  {
    if step.FailRowStep? || step.DeleteKeyStep? {
      assert InCleanup(s, step.row);
    }
  }

  // ----- A step leaves everything that other calls and visible rows count on

  /** The object at this key is as before. */
  predicate SameObject(s: State, s': State, key: Key) {
    && (key in s.objects <==> key in s'.objects)
    && (key in s.objects && key in s'.objects ==> s'.objects[key] == s.objects[key])
  }

  predicate AssetsKept(s: State, s': State) {
    forall a | a in s.assets :: a in s'.assets && s'.assets[a] == s.assets[a]
  }

  /** A step writes and deletes objects at the key of its own call at most; a cleanup deletes none. */
  lemma StepsWriteTheirOwnKey(hash: Bytes -> string, s: State, step: Step, key: Key)
    requires Enabled(hash, s, step) && ActorOk(hash, s, step)
    requires IsObjectStep(step) ==> key != DraftKey(s, s.calls[step.call].upload)
    ensures SameObject(s, Apply(hash, s, step), key)
  {
    if step.DeleteKeyStep? {
      assert Apply(hash, s, step) == KeyDeleted(s, step.row);
    } else if !IsObjectStep(step) {
      Frame(hash, s, step);
    }
  }

  lemma StepsKeepAssets(hash: Bytes -> string, s: State, step: Step)
    requires Enabled(hash, s, step) && ActorOk(hash, s, step)
    ensures AssetsKept(s, Apply(hash, s, step))
  {
    Frame(hash, s, step);
  }

  /** A key that no visible asset has, unless a session that owns an asset there commits, stays so. */
  lemma FreeKeysStayFree(hash: Bytes -> string, s: State, step: Step, key: Key)
    requires Enabled(hash, s, step) && ActorOk(hash, s, step)
    requires step.CommitStep? ==> key != DraftKey(s, s.calls[step.call].upload)
    ensures NoAssetAt(s.assets, key) ==> NoAssetAt(Apply(hash, s, step).assets, key)
    ensures KeyFree(s.uploads, key) ==> KeyFree(Apply(hash, s, step).uploads, key)
  {
    Frame(hash, s, step);
  }

  /** A visible row changes only when the cleanup fails it. */
  lemma StepsKeepRows(hash: Bytes -> string, s: State, step: Step, u: Id)
    requires Enabled(hash, s, step) && ActorOk(hash, s, step)
    requires u in s.uploads && (step.FailRowStep? ==> step.row != u)
    ensures u in Apply(hash, s, step).uploads && Apply(hash, s, step).uploads[u] == s.uploads[u]
  {
    Frame(hash, s, step);
  }

  lemma NewRowsAreCommitted(hash: Bytes -> string, s: State, step: Step, u: Id)
    requires Enabled(hash, s, step) && u in Apply(hash, s, step).uploads && u !in s.uploads
    ensures step.CommitStep? && u == s.calls[step.call].upload && Apply(hash, s, step).uploads[u] == s.drafts[u]
  {
    Frame(hash, s, step);
  }

  // ----- Assets

  lemma NewAssetIsOk(hash: Bytes -> string, s: State, step: Step, a: Id)
    requires Enabled(hash, s, step) && ActorOk(hash, s, step)
    requires a !in s.assets && a in Apply(hash, s, step).assets
    ensures AssetOk(hash, Apply(hash, s, step), a)
  {
    Frame(hash, s, step);
  }

  /** An asset, once visible, keeps its record and its object's bytes. */
  predicate AssetKept(s: State, s': State, a: Id) {
    a in s.assets && s.assets[a].storageKey in s.objects ==>
      && a in s'.assets && s'.assets[a] == s.assets[a]
      && s.assets[a].storageKey in s'.objects
      && s'.objects[s.assets[a].storageKey] == s.objects[s.assets[a].storageKey]
  }

  lemma NextKeepsAssetBytes(hash: Bytes -> string, s: State, step: Step, a: Id)
    requires Enabled(hash, s, step) && ActorOk(hash, s, step)
    ensures AssetKept(s, Apply(hash, s, step), a)
  {
    if a in s.assets {
      StepsWriteTheirOwnKey(hash, s, step, s.assets[a].storageKey);
      StepsKeepAssets(hash, s, step);
    }
  }

  lemma NextKeepsAsset(hash: Bytes -> string, s: State, step: Step, a: Id)
    requires Enabled(hash, s, step) && ActorOk(hash, s, step) && a in Apply(hash, s, step).assets
    requires a in s.assets ==> AssetOk(hash, s, a)
    ensures AssetOk(hash, Apply(hash, s, step), a)
  {
    if a in s.assets {
      NextKeepsAssetBytes(hash, s, step, a);
    } else {
      NewAssetIsOk(hash, s, step, a);
    }
  }

  // ----- Visible rows

  lemma KeysOfRowsAreOthers(hash: Bytes -> string, s: State, step: Step, u: Id)
    requires Enabled(hash, s, step) && ActorOk(hash, s, step) && u in s.uploads
    requires IsObjectStep(step) || step.CommitStep?
    ensures KeyOf(s, u) != DraftKey(s, s.calls[step.call].upload)
  {
  }

  lemma FailedRowIsOk(s: State, u: Id, now: Time)
    requires Idle(s, u) && UploadOk(s, u)
    ensures UploadOk(RowFailed(s, u, now), u) && Idle(RowFailed(s, u, now), u)
  {
  }

  lemma CommittedRowIsOk(hash: Bytes -> string, s: State, step: Step)
    requires Enabled(hash, s, step) && ActorOk(hash, s, step) && step.CommitStep?
    ensures var s', u := Apply(hash, s, step), s.calls[step.call].upload;
            u in s'.uploads && s'.uploads[u].status.Completed? && UploadOk(s', u)
  {
  }

  lemma NextKeepsUpload(hash: Bytes -> string, s: State, step: Step, u: Id)
    requires Enabled(hash, s, step) && ActorOk(hash, s, step)
    requires u in Apply(hash, s, step).uploads
    requires u in s.uploads ==> UploadOk(s, u)
    ensures UploadOk(Apply(hash, s, step), u)
  {
    if u !in s.uploads {
      NewRowsAreCommitted(hash, s, step, u);
      CommittedRowIsOk(hash, s, step);
    } else if step.FailRowStep? && step.row == u {
      FailedRowIsOk(s, u, step.cleanedAt);
    } else {
      if IsObjectStep(step) || step.CommitStep? {
        KeysOfRowsAreOthers(hash, s, step, u);
      }
      StepsKeepRows(hash, s, step, u);
      StepsWriteTheirOwnKey(hash, s, step, KeyOf(s, u));
      FreeKeysStayFree(hash, s, step, KeyOf(s, u));
      StepsKeepAssets(hash, s, step);
    }
  }

  lemma IdleRowStaysIdle(hash: Bytes -> string, s: State, step: Step, u: Id)
    requires Enabled(hash, s, step) && ActorOk(hash, s, step) && Idle(s, u) && UploadOk(s, u)
    ensures Idle(Apply(hash, s, step), u)
  {
    if step.FailRowStep? && step.row == u {
      FailedRowIsOk(s, u, step.cleanedAt);
    } else {
      if IsObjectStep(step) || step.CommitStep? {
        KeysOfRowsAreOthers(hash, s, step, u);
      }
      StepsKeepRows(hash, s, step, u);
      StepsWriteTheirOwnKey(hash, s, step, KeyOf(s, u));
      FreeKeysStayFree(hash, s, step, KeyOf(s, u));
    }
  }

  lemma CleaningUnlistsRows(s: State, id: Id, now: Time, u: Id)
    requires id in s.uploads
    ensures id in s.listed && InCleanup(RowFailed(s, id, now), u) ==> InCleanup(s, u)
    ensures InCleanup(KeyDeleted(s, id), u) ==> InCleanup(s, u)
  {
  }

  lemma CleanupRowsComeFromListings(hash: Bytes -> string, s: State, step: Step, u: Id)
    requires Enabled(hash, s, step) && InCleanup(Apply(hash, s, step), u)
    ensures InCleanup(s, u) || (step.ListStep? && u in step.batch)
  {
    match step
    case ListStep(batch, _) => assert Apply(hash, s, step) == Listed(s, batch);
    case FailRowStep(id, now) => CleaningUnlistsRows(s, id, now, u);
    case DeleteKeyStep(id) => CleaningUnlistsRows(s, id, 0, u);
    case _ => Frame(hash, s, step);
  }

  lemma NextKeepsCleanup(hash: Bytes -> string, s: State, step: Step, u: Id)
    requires Enabled(hash, s, step) && ActorOk(hash, s, step)
    requires InCleanup(Apply(hash, s, step), u)
    requires InCleanup(s, u) ==> Idle(s, u)
    requires u in s.uploads ==> UploadOk(s, u)
    ensures Idle(Apply(hash, s, step), u)
  {
    CleanupRowsComeFromListings(hash, s, step, u);
    if InCleanup(s, u) {
      IdleRowStaysIdle(hash, s, step, u);
    }
  }

  // ----- Calls

  lemma RowStepsLeaveOtherCalls(hash: Bytes -> string, s: State, step: Step, c: Id)
    requires Enabled(hash, s, step) && IsRowStep(step) && c != step.call
    ensures c in Apply(hash, s, step).calls <==> c in s.calls
    ensures c in s.calls ==> Apply(hash, s, step).calls[c] == s.calls[c]
    ensures At(s, c, true) && Distinct(s, c, step.call) ==>
              var u := s.calls[c].upload;
              u in Apply(hash, s, step).drafts && Apply(hash, s, step).drafts[u] == s.drafts[u]
  {
    match step
    case InsertStep(call, id, key, now) => assert Apply(hash, s, step) == Inserted(s, call, id, key, now);
    case StartStep(call) => assert Apply(hash, s, step) == Begun(s, call);
    case RejectStep(call, now) => assert Apply(hash, s, step) == Rejected(s, call, now);
    case CompleteStep(call, now) => assert Apply(hash, s, step) == Finished(hash, s, call, now);
  }

  lemma ObjectStepsLeaveOtherCalls(hash: Bytes -> string, s: State, step: Step, c: Id)
    requires Enabled(hash, s, step) && IsObjectStep(step) && c != step.call
    ensures c in Apply(hash, s, step).calls <==> c in s.calls
    ensures c in s.calls ==> Apply(hash, s, step).calls[c] == s.calls[c]
  {
    match step
    case StoreStep(call, content) => assert Apply(hash, s, step) == Received(s, call, content);
    case DropDuplicateStep(call, deleted) => assert Apply(hash, s, step) == DuplicateDropped(s, call, deleted);
  }

  lemma QuietStepsLeaveOtherCalls(hash: Bytes -> string, s: State, step: Step, c: Id)
    requires Enabled(hash, s, step) && IsQuiet(step) && c != step.call
    ensures c in Apply(hash, s, step).calls <==> c in s.calls
    ensures c in s.calls ==> Apply(hash, s, step).calls[c] == s.calls[c]
  {
    match step
    case FindStep(call, found) => assert Apply(hash, s, step) == Found(s, call, found);
    case CreateAssetStep(call, a, ok) => assert Apply(hash, s, step) == AssetCreated(hash, s, call, a, ok);
    case LookupStep(_, _, _, _, _) =>
  }

  /** A step is the step of one call at most. */
  lemma OtherCallsArePut(hash: Bytes -> string, s: State, step: Step, c: Id)
    requires Enabled(hash, s, step) && (ByCall(step) ==> c != step.call)
    ensures c in Apply(hash, s, step).calls <==> c in s.calls
    ensures c in s.calls ==> Apply(hash, s, step).calls[c] == s.calls[c]
  {
    if IsRowStep(step) {
      RowStepsLeaveOtherCalls(hash, s, step, c);
    } else if IsObjectStep(step) {
      ObjectStepsLeaveOtherCalls(hash, s, step, c);
    } else if IsQuiet(step) {
      QuietStepsLeaveOtherCalls(hash, s, step, c);
    } else {
      Frame(hash, s, step);
    }
  }

  /** A session's rows are its own. */
  lemma OtherDraftsStay(hash: Bytes -> string, s: State, step: Step, c: Id)
    requires Enabled(hash, s, step) && ActorOk(hash, s, step) && At(s, c, true)
    requires ByCall(step) ==> c != step.call && Distinct(s, c, step.call)
    ensures var u := s.calls[c].upload;
            u in Apply(hash, s, step).drafts && Apply(hash, s, step).drafts[u] == s.drafts[u]
  {
    if IsRowStep(step) {
      RowStepsLeaveOtherCalls(hash, s, step, c);
    } else {
      Frame(hash, s, step);
    }
  }

  lemma OtherRowsStayOut(hash: Bytes -> string, s: State, step: Step, c: Id)
    requires Enabled(hash, s, step) && At(s, c, true) && s.calls[c].upload !in s.uploads
    requires ByCall(step) ==> c != step.call && Distinct(s, c, step.call)
    ensures s.calls[c].upload !in Apply(hash, s, step).uploads
  {
    if s.calls[c].upload in Apply(hash, s, step).uploads {
      NewRowsAreCommitted(hash, s, step, s.calls[c].upload);
    }
  }

  lemma OtherNewAssetsStay(hash: Bytes -> string, s: State, step: Step, c: Id)
    requires Enabled(hash, s, step) && ActorOk(hash, s, step) && At(s, c, true) && CallOk(hash, s, c)
    requires ByCall(step) ==> c != step.call && Distinct(s, c, step.call)
    requires s.calls[c].Linked? || s.calls[c].Done?
    ensures var a, s' := s.calls[c].asset, Apply(hash, s, step);
            && (a in s.newAssets <==> a in s'.newAssets)
            && (a in s.newAssets ==> s'.newAssets[a] == s.newAssets[a] && a !in s'.assets)
  {
    Frame(hash, s, step);
  }

  /** Nothing that a call counts on has changed. */
  predicate SameFor(s: State, s': State, c: Id)
    requires c in s.calls
  {
    var p := s.calls[c];
    c in s'.calls && s'.calls[c] == p &&
    (!p.Looked? && p.upload in s.drafts ==>
       && p.upload in s'.drafts && s'.drafts[p.upload] == s.drafts[p.upload]
       && (p.upload !in s.uploads ==> p.upload !in s'.uploads)
       && var key := DraftKey(s, p.upload);
       && SameObject(s, s', key)
       && (NoAssetAt(s.assets, key) ==> NoAssetAt(s'.assets, key))
       && (KeyFree(s.uploads, key) ==> KeyFree(s'.uploads, key))
       && AssetsKept(s, s')
       && (p.Linked? || p.Done? ==>
             && (p.asset in s.newAssets <==> p.asset in s'.newAssets)
             && (p.asset in s.newAssets ==> s'.newAssets[p.asset] == s.newAssets[p.asset] && p.asset !in s'.assets)))
  }

  lemma OtherCallsSeeTheSame(hash: Bytes -> string, s: State, step: Step, c: Id)
    requires Enabled(hash, s, step) && ActorOk(hash, s, step) && c in s.calls && CallOk(hash, s, c)
    requires ByCall(step) ==> c != step.call && Distinct(s, c, step.call)
    ensures SameFor(s, Apply(hash, s, step), c)
  {
    OtherCallsArePut(hash, s, step, c);
    if !s.calls[c].Looked? {
      var key := DraftKey(s, s.calls[c].upload);
      assert At(s, c, true);
      assert IsObjectStep(step) || step.CommitStep? ==> At(s, step.call, true);
      OtherDraftsStay(hash, s, step, c);
      OtherRowsStayOut(hash, s, step, c);
      StepsWriteTheirOwnKey(hash, s, step, key);
      FreeKeysStayFree(hash, s, step, key);
      StepsKeepAssets(hash, s, step);
      if s.calls[c].Linked? || s.calls[c].Done? {
        OtherNewAssetsStay(hash, s, step, c);
      }
    }
  }

  lemma SameForKeepsCall(hash: Bytes -> string, s: State, s': State, c: Id)
    requires c in s.calls && CallOk(hash, s, c) && SameFor(s, s', c)
    ensures CallOk(hash, s', c)
  {
  }

  lemma InsertedIsOk(hash: Bytes -> string, s: State, c: Id, id: Id, key: Key, now: Time)
    requires c in s.calls && s.calls[c].Looked? && FreshUpload(s, id, key)
    ensures c in Inserted(s, c, id, key, now).calls ==> CallOk(hash, Inserted(s, c, id, key, now), c)
  {
    var s' := Inserted(s, c, id, key, now);
    if c in s'.calls {
      assert s'.uploads == s.uploads && s'.assets == s.assets && s'.objects == s.objects;
      assert s'.drafts[id] == NewUpload(s.calls[c].user, key, s.calls[c].key, now) && s'.calls[c] == Created(id);
    }
  }

  lemma BegunIsOk(hash: Bytes -> string, s: State, c: Id)
    requires At(s, c, true) && CallOk(hash, s, c) && s.calls[c].Created?
    ensures CallOk(hash, Begun(s, c), c)
  {
  }

  lemma RejectedIsOk(hash: Bytes -> string, s: State, c: Id, now: Time)
    requires At(s, c, true) && CallOk(hash, s, c) && s.calls[c].Started?
    ensures CallOk(hash, Rejected(s, c, now), c)
  {
  }

  lemma FinishedIsOk(hash: Bytes -> string, s: State, c: Id, now: Time)
    requires At(s, c, true) && CallOk(hash, s, c) && s.calls[c].Linked?
    ensures CallOk(hash, Finished(hash, s, c, now), c)
  {
  }

  lemma ReceivedIsOk(hash: Bytes -> string, s: State, c: Id, content: Bytes)
    requires At(s, c, true) && CallOk(hash, s, c) && s.calls[c].Started?
    ensures CallOk(hash, Received(s, c, content), c)
  {
  }

  lemma DroppedIsOk(hash: Bytes -> string, s: State, c: Id, deleted: bool)
    requires At(s, c, true) && CallOk(hash, s, c) && s.calls[c].Matched? && HashesApart(s)
    ensures CallOk(hash, DuplicateDropped(s, c, deleted), c)
  {
  }

  lemma FoundIsOk(hash: Bytes -> string, s: State, c: Id, found: Option<Id>)
    requires At(s, c, true) && CallOk(hash, s, c) && s.calls[c].Stored?
    requires found.Some? ==> found.value in s.assets && s.assets[found.value].sha256 == hash(s.calls[c].content)
    ensures CallOk(hash, Found(s, c, found), c)
  {
  }

  lemma CreatedIsOk(hash: Bytes -> string, s: State, c: Id, a: Id, reachable: bool)
    requires At(s, c, true) && CallOk(hash, s, c) && s.calls[c].Missed? && a !in s.assets
    ensures CallOk(hash, AssetCreated(hash, s, c, a, reachable), c)
  {
  }

  lemma RowActorStaysOk(hash: Bytes -> string, s: State, step: Step)
    requires Enabled(hash, s, step) && ActorOk(hash, s, step) && IsRowStep(step)
    requires step.call in Apply(hash, s, step).calls
    ensures CallOk(hash, Apply(hash, s, step), step.call)
  {
    match step
    case InsertStep(c, id, key, now) =>
      InsertedIsOk(hash, s, c, id, key, now);
      assert Apply(hash, s, step) == Inserted(s, c, id, key, now);
    case StartStep(c) =>
      BegunIsOk(hash, s, c);
      assert Apply(hash, s, step) == Begun(s, c);
    case RejectStep(c, now) =>
      RejectedIsOk(hash, s, c, now);
      assert Apply(hash, s, step) == Rejected(s, c, now);
    case CompleteStep(c, now) =>
      FinishedIsOk(hash, s, c, now);
      assert Apply(hash, s, step) == Finished(hash, s, c, now);
  }

  lemma ObjectActorStaysOk(hash: Bytes -> string, s: State, step: Step)
    requires Enabled(hash, s, step) && ActorOk(hash, s, step) && IsObjectStep(step) && HashesApart(s)
    ensures step.call in Apply(hash, s, step).calls && CallOk(hash, Apply(hash, s, step), step.call)
  {
    match step
    case StoreStep(c, content) =>
      ReceivedIsOk(hash, s, c, content);
      assert Apply(hash, s, step) == Received(s, c, content);
    case DropDuplicateStep(c, deleted) =>
      DroppedIsOk(hash, s, c, deleted);
      assert Apply(hash, s, step) == DuplicateDropped(s, c, deleted);
  }

  lemma QuietActorStaysOk(hash: Bytes -> string, s: State, step: Step)
    requires Enabled(hash, s, step) && ActorOk(hash, s, step) && IsQuiet(step)
    requires step.call in Apply(hash, s, step).calls
    ensures CallOk(hash, Apply(hash, s, step), step.call)
  {
    match step
    case LookupStep(_, _, _, _, _) =>
    case FindStep(c, found) =>
      FoundIsOk(hash, s, c, found);
      assert Apply(hash, s, step) == Found(s, c, found);
    case CreateAssetStep(c, a, reachable) =>
      CreatedIsOk(hash, s, c, a, reachable);
      assert Apply(hash, s, step) == AssetCreated(hash, s, c, a, reachable);
  }

  lemma NextKeepsCall(hash: Bytes -> string, s: State, step: Step, c: Id)
    requires HashesApart(s) && CallsDistinct(s) && Enabled(hash, s, step) && ActorOk(hash, s, step)
    requires c in s.calls ==> CallOk(hash, s, c)
    requires c in Apply(hash, s, step).calls
    ensures CallOk(hash, Apply(hash, s, step), c)
  {
    if !ByCall(step) || c != step.call {
      OtherCallsArePut(hash, s, step, c);
      assert ByCall(step) && step.call !in s.calls ==> Distinct(s, c, step.call);
      OtherCallsSeeTheSame(hash, s, step, c);
      SameForKeepsCall(hash, s, Apply(hash, s, step), c);
    } else if IsRowStep(step) {
      RowActorStaysOk(hash, s, step);
    } else if IsObjectStep(step) {
      ObjectActorStaysOk(hash, s, step);
    } else {
      QuietActorStaysOk(hash, s, step);
    }
  }

  // ----- Every call works on its own row and key

  /** A call keeps its row and key; a new one has those that were drawn for it. */
  predicate SameWork(s: State, s': State, c: Id) {
    At(s', c, true) ==>
      && At(s, c, true) && s.calls[c].upload == s'.calls[c].upload
      && DraftKey(s, s.calls[c].upload) == DraftKey(s', s'.calls[c].upload)
  }

  /** Where a call's own step takes it. */
  lemma RowActorAdvances(hash: Bytes -> string, s: State, step: Step)
    requires Enabled(hash, s, step) && IsRowStep(step) && step.call in Apply(hash, s, step).calls
    ensures var p, p' := s.calls[step.call], Apply(hash, s, step).calls[step.call];
            || p'.Created? || p'.Started? || p'.Raised?
            || (step.CompleteStep? && p.Linked? && p' == Done(p.upload, p.content, p.asset))
  {
    match step
    case InsertStep(c, id, key, now) => assert Inserted(s, c, id, key, now).calls == Goto(s, c, Created(id)).calls;
    case StartStep(c) => assert Begun(s, c).calls == Goto(s, c, Started(s.calls[c].upload)).calls;
    case RejectStep(c, now) => assert Rejected(s, c, now).calls == Goto(s, c, Raised(s.calls[c].upload)).calls;
    case CompleteStep(c, now) =>
      var p := s.calls[c];
      assert Finished(hash, s, c, now).calls == Goto(s, c, Done(p.upload, p.content, p.asset)).calls;
  }

  lemma FinderAdvances(hash: Bytes -> string, s: State, step: Step)
    requires Enabled(hash, s, step) && step.FindStep?
    ensures var c, p := step.call, s.calls[step.call];
            && p.Stored? && c in Apply(hash, s, step).calls
            && Apply(hash, s, step).calls[c] ==
                 if step.match_.Some? then Matched(p.upload, p.content, step.match_.value)
                 else Missed(p.upload, p.content)
  {
    assert Apply(hash, s, step) == Found(s, step.call, step.match_);
  }

  lemma CreatorAdvances(hash: Bytes -> string, s: State, step: Step)
    requires Enabled(hash, s, step) && step.CreateAssetStep?
    ensures var c, p := step.call, s.calls[step.call];
            && p.Missed? && c in Apply(hash, s, step).calls
            && Apply(hash, s, step).calls[c] in {Raised(p.upload), Linked(p.upload, p.content, step.newAsset)}
  {
    assert Apply(hash, s, step) == AssetCreated(hash, s, step.call, step.newAsset, step.reachable);
  }

  lemma ObjectActorAdvances(hash: Bytes -> string, s: State, step: Step)
    requires Enabled(hash, s, step) && IsObjectStep(step) && step.call in Apply(hash, s, step).calls
    ensures var p, p' := s.calls[step.call], Apply(hash, s, step).calls[step.call];
            || (step.StoreStep? && p'.Stored?)
            || (step.DropDuplicateStep? && p.Matched? && p' == Linked(p.upload, p.content, p.existing))
  {
    match step
    case StoreStep(call, content) => assert Apply(hash, s, step) == Received(s, call, content);
    case DropDuplicateStep(call, deleted) => assert Apply(hash, s, step) == DuplicateDropped(s, call, deleted);
  }

  lemma RowActorKeepsItsWork(hash: Bytes -> string, s: State, step: Step)
    requires Enabled(hash, s, step) && IsRowStep(step) && !step.InsertStep?
    ensures SameWork(s, Apply(hash, s, step), step.call)
  {
    match step
    case StartStep(call) => assert Apply(hash, s, step) == Begun(s, call);
    case RejectStep(call, now) => assert Apply(hash, s, step) == Rejected(s, call, now);
    case CompleteStep(call, now) => assert Apply(hash, s, step) == Finished(hash, s, call, now);
  }

  lemma OtherActorKeepsItsWork(hash: Bytes -> string, s: State, step: Step)
    requires Enabled(hash, s, step) && ByCall(step) && !IsRowStep(step)
    ensures SameWork(s, Apply(hash, s, step), step.call)
  {
    match step
    case StoreStep(call, content) => assert Apply(hash, s, step) == Received(s, call, content);
    case DropDuplicateStep(call, deleted) => assert Apply(hash, s, step) == DuplicateDropped(s, call, deleted);
    case FindStep(call, found) => assert Apply(hash, s, step) == Found(s, call, found);
    case CreateAssetStep(call, a, ok) => assert Apply(hash, s, step) == AssetCreated(hash, s, call, a, ok);
    case LookupStep(_, _, _, _, _) =>
    case CommitStep(call) => Frame(hash, s, step);
    case RollbackStep(call) => Frame(hash, s, step);
  }

  lemma CallsKeepTheirWork(hash: Bytes -> string, s: State, step: Step, c: Id)
    requires CallsDistinct(s) && Enabled(hash, s, step) && ActorOk(hash, s, step)
    requires c in s.calls ==> CallOk(hash, s, c)
    ensures (step.InsertStep? && step.call == c) || SameWork(s, Apply(hash, s, step), c)
  {
    if !ByCall(step) || c != step.call {
      OtherCallsArePut(hash, s, step, c);
      if At(s, c, true) {
        assert ByCall(step) && step.call in s.calls ==> Distinct(s, c, step.call);
        assert ByCall(step) && step.call !in s.calls ==> Distinct(s, c, step.call);
        OtherDraftsStay(hash, s, step, c);
      }
    } else if IsRowStep(step) {
      if !step.InsertStep? {
        RowActorKeepsItsWork(hash, s, step);
      }
    } else {
      OtherActorKeepsItsWork(hash, s, step);
    }
  }

  lemma InsertedWorkIsFresh(hash: Bytes -> string, s: State, step: Step, c: Id)
    requires Enabled(hash, s, step) && step.InsertStep? && c != step.call && At(s, c, true)
    ensures At(Apply(hash, s, step), step.call, true) ==>
              var s' := Apply(hash, s, step);
              var id := s'.calls[step.call].upload;
              id == step.newUpload && id != s.calls[c].upload && DraftKey(s', id) == step.storageKey
              && step.storageKey != DraftKey(s, s.calls[c].upload)
  {
    assert Apply(hash, s, step) == Inserted(s, step.call, step.newUpload, step.storageKey, step.now);
  }

  lemma NextKeepsCallsDistinct(hash: Bytes -> string, s: State, step: Step, c1: Id, c2: Id)
    requires CallsDistinct(s) && Enabled(hash, s, step) && ActorOk(hash, s, step)
    requires (c1 in s.calls ==> CallOk(hash, s, c1)) && (c2 in s.calls ==> CallOk(hash, s, c2))
    requires c1 in Apply(hash, s, step).calls && c2 in Apply(hash, s, step).calls && c1 != c2
    ensures Distinct(Apply(hash, s, step), c1, c2)
  {
    CallsKeepTheirWork(hash, s, step, c1);
    CallsKeepTheirWork(hash, s, step, c2);
    assert c1 in s.calls && c2 in s.calls ==> Distinct(s, c1, c2);
    if step.InsertStep? && step.call == c1 && At(s, c2, true) {
      InsertedWorkIsFresh(hash, s, step, c2);
    } else if step.InsertStep? && step.call == c2 && At(s, c1, true) {
      InsertedWorkIsFresh(hash, s, step, c1);
    }
  }

  lemma NextKeepsInv(hash: Bytes -> string, s: State, step: Step)
    requires Inv(hash, s) && Enabled(hash, s, step)
    ensures Inv(hash, Apply(hash, s, step))
  {
    var s' := Apply(hash, s, step);
    ActorsAreOk(hash, s, step);
    NextKeepsHashes(hash, s, step);
    NextKeepsRequests(hash, s, step);
    forall c1, c2 | c1 in s'.calls && c2 in s'.calls && c1 != c2 ensures Distinct(s', c1, c2) {
      NextKeepsCallsDistinct(hash, s, step, c1, c2);
    }
    forall a | a in s'.assets ensures AssetOk(hash, s', a) {
      NextKeepsAsset(hash, s, step, a);
    }
    forall u | u in s'.uploads ensures UploadOk(s', u) {
      NextKeepsUpload(hash, s, step, u);
    }
    forall c | c in s'.calls ensures CallOk(hash, s', c) {
      NextKeepsCall(hash, s, step, c);
    }
    forall u | InCleanup(s', u) ensures Idle(s', u) {
      NextKeepsCleanup(hash, s, step, u);
    }
  }

  lemma {:induction false} PathsKeepInv(hash: Bytes -> string, trace: seq<State>, steps: seq<Step>, i: nat)
    requires Path(hash, trace, steps) && Inv(hash, trace[0]) && i < |trace|
    ensures Inv(hash, trace[i])
  {
    if i > 0 {
      PathsKeepInv(hash, trace, steps, i - 1);
      NextKeepsInv(hash, trace[i - 1], steps[i - 1]);
    }
  }

  lemma RunsKeepInv(hash: Bytes -> string, trace: seq<State>, steps: seq<Step>, i: nat)
    requires Run(hash, trace, steps) && i < |trace|
    ensures Inv(hash, trace[i])
  {
    PathsKeepInv(hash, trace, steps, i);
  }

  // ----- What users of the store may rely on

  /**
   * Over every interleaving of uploads, commits, rollbacks and cleanups: every asset's object is present, hashes
   * to the asset's identity and has its size; no two assets share a hash; and a completed upload links to an
   * asset with its checksum.
   */
  lemma StoreIsConsistent(hash: Bytes -> string, trace: seq<State>, steps: seq<Step>, i: nat)
    requires Run(hash, trace, steps) && i < |trace|
    ensures var s := trace[i];
            && (forall a | a in s.assets ::
                  && s.assets[a].storageKey in s.objects
                  && hash(s.objects[s.assets[a].storageKey]) == s.assets[a].sha256
                  && |s.objects[s.assets[a].storageKey]| == s.assets[a].size)
            && (forall a, b | a in s.assets && b in s.assets && s.assets[a].sha256 == s.assets[b].sha256 :: a == b)
            && (forall u | u in s.uploads && s.uploads[u].status.Completed? ::
                  && s.uploads[u].assetId.Some? && s.uploads[u].assetId.value in s.assets
                  && s.uploads[u].checksum == Some(s.assets[s.uploads[u].assetId.value].sha256))
  {
    RunsKeepInv(hash, trace, steps, i);
    assert forall a | a in trace[i].assets :: AssetOk(hash, trace[i], a);
    assert forall u | u in trace[i].uploads :: UploadOk(trace[i], u);
  }

  lemma {:induction false} KeptAssetsStay(trace: seq<State>, i: nat, j: nat, a: Id)
    requires i <= j < |trace|
    requires forall k | i <= k < j :: AssetKept(trace[k], trace[k + 1], a)
    ensures AssetKept(trace[i], trace[j], a)
    decreases j - i
  {
    if i < j {
      KeptAssetsStay(trace, i, j - 1, a);
      assert AssetKept(trace[j - 1], trace[j - 1 + 1], a);
    }
  }

  /** An asset, once visible, keeps its record and its object for ever: nothing deletes them. */
  lemma AssetsArePermanent(hash: Bytes -> string, trace: seq<State>, steps: seq<Step>, i: nat, j: nat, a: Id)
    requires Run(hash, trace, steps) && i <= j < |trace| && a in trace[i].assets
    ensures a in trace[j].assets && trace[j].assets[a] == trace[i].assets[a]
    ensures var key := trace[i].assets[a].storageKey;
            key in trace[i].objects && key in trace[j].objects && trace[j].objects[key] == trace[i].objects[key]
  {
    forall k | i <= k < j ensures AssetKept(trace[k], trace[k + 1], a) {
      RunsKeepInv(hash, trace, steps, k);
      ActorsAreOk(hash, trace[k], steps[k]);
      NextKeepsAssetBytes(hash, trace[k], steps[k], a);
    }
    KeptAssetsStay(trace, i, j, a);
    RunsKeepInv(hash, trace, steps, i);
    assert AssetOk(hash, trace[i], a);
  }

  /** Every visible upload row is valid. */
  lemma UploadRowsAreValid(hash: Bytes -> string, trace: seq<State>, steps: seq<Step>, i: nat, u: Id)
    requires Run(hash, trace, steps) && i < |trace| && u in trace[i].uploads
    ensures RowValid(trace[i].uploads[u])
  {
    RunsKeepInv(hash, trace, steps, i);
    assert UploadOk(trace[i], u);
  }

  /** A completed row does not change, and the only other rows are those of the beginning. */
  predicate RowKept(s: State, s': State, u: Id) {
    && (u in s.uploads ==> && u in s'.uploads && s'.uploads[u].user == s.uploads[u].user
                           && s'.uploads[u].idempotencyKey == s.uploads[u].idempotencyKey
                           && (s.uploads[u].status.Completed? ==> s'.uploads[u] == s.uploads[u])
                           && (s'.uploads[u].status.Pending? ==> s'.uploads[u] == s.uploads[u]))
    && (u !in s.uploads && u in s'.uploads ==> s'.uploads[u].status.Completed?)
  }

  lemma NextKeepsRow(hash: Bytes -> string, s: State, step: Step, u: Id)
    requires Enabled(hash, s, step) && ActorOk(hash, s, step)
    ensures RowKept(s, Apply(hash, s, step), u)
  {
    if u !in s.uploads {
      if u in Apply(hash, s, step).uploads {
        NewRowsAreCommitted(hash, s, step, u);
      }
    } else if step.FailRowStep? && step.row == u {
      assert Apply(hash, s, step) == RowFailed(s, u, step.cleanedAt);
    } else {
      StepsKeepRows(hash, s, step, u);
    }
  }

  lemma {:induction false} KeptRowsStay(trace: seq<State>, i: nat, j: nat, u: Id)
    requires i <= j < |trace|
    requires forall k | i <= k < j :: RowKept(trace[k], trace[k + 1], u)
    ensures RowKept(trace[i], trace[j], u)
    decreases j - i
  {
    if i < j {
      KeptRowsStay(trace, i, j - 1, u);
      assert RowKept(trace[j - 1], trace[j - 1 + 1], u);
    }
  }

  lemma RowsAreKept(hash: Bytes -> string, trace: seq<State>, steps: seq<Step>, i: nat, j: nat, u: Id)
    requires Run(hash, trace, steps) && i <= j < |trace|
    ensures RowKept(trace[i], trace[j], u)
  {
    forall k | i <= k < j ensures RowKept(trace[k], trace[k + 1], u) {
      RunsKeepInv(hash, trace, steps, k);
      ActorsAreOk(hash, trace[k], steps[k]);
      NextKeepsRow(hash, trace[k], steps[k], u);
    }
    KeptRowsStay(trace, i, j, u);
  }

  /**
   * A session publishes its upload completed or not at all: a failed or abandoned upload is never visible, and
   * what is completed never changes again.
   */
  lemma CommittedUploadsAreCompleted(
    hash: Bytes -> string, trace: seq<State>, steps: seq<Step>, i: nat, j: nat, u: Id)
    requires Run(hash, trace, steps) && i <= j < |trace| && u in trace[i].uploads
    ensures u !in trace[0].uploads ==> trace[i].uploads[u].status.Completed?
    ensures trace[i].uploads[u].status.Completed? ==>
              u in trace[j].uploads && trace[j].uploads[u] == trace[i].uploads[u]
  {
    RowsAreKept(hash, trace, steps, 0, i, u);
    RowsAreKept(hash, trace, steps, i, j, u);
  }

  /** So a cleanup lists only rows that were there, pending, from the beginning, and none of a call under way. */
  lemma CleanupListsOldRows(hash: Bytes -> string, trace: seq<State>, steps: seq<Step>, i: nat, u: Id)
    requires Run(hash, trace, steps) && i < |steps| && steps[i].ListStep? && u in steps[i].batch
    ensures u in trace[0].uploads && u in trace[i].uploads && trace[i].uploads[u] == trace[0].uploads[u]
    ensures forall c | c in trace[i].calls && !trace[i].calls[c].Looked? :: trace[i].calls[c].upload != u
  {
    RunsKeepInv(hash, trace, steps, i);
    RowsAreKept(hash, trace, steps, 0, i, u);
    assert Enabled(hash, trace[i], steps[i]);
    assert Abandoned(trace[i].uploads[u], steps[i].listedAt);
    forall c | c in trace[i].calls && !trace[i].calls[c].Looked? ensures trace[i].calls[c].upload != u {
      assert CallOk(hash, trace[i], c);
    }
  }

  lemma CleanupStepIsHarmless(hash: Bytes -> string, s: State, step: Step)
    requires Enabled(hash, s, step) && (step.FailRowStep? || step.DeleteKeyStep?) && Idle(s, step.row)
    ensures var s' := Apply(hash, s, step);
            && s'.objects == s.objects
            && forall v | v in s.uploads && v != step.row :: v in s'.uploads && s'.uploads[v] == s.uploads[v]
  {
    if step.DeleteKeyStep? {
      assert Apply(hash, s, step) == KeyDeleted(s, step.row);
    } else {
      assert Apply(hash, s, step) == RowFailed(s, step.row, step.cleanedAt);
    }
  }

  /** And it fails rows that nobody completed, and only ever deletes keys that hold nothing. */
  lemma CleanupRemovesNoObject(hash: Bytes -> string, trace: seq<State>, steps: seq<Step>, i: nat)
    requires Run(hash, trace, steps) && i < |steps|
    requires steps[i].FailRowStep? || steps[i].DeleteKeyStep?
    ensures trace[i + 1].objects == trace[i].objects
    ensures var u := steps[i].row;
            && u in trace[i].uploads && (trace[i].uploads[u].status.Pending? || trace[i].uploads[u].status.Failed?)
            && (forall v | v in trace[i].uploads && v != u ::
                  v in trace[i + 1].uploads && trace[i + 1].uploads[v] == trace[i].uploads[v])
  {
    RunsKeepInv(hash, trace, steps, i);
    ActorsAreOk(hash, trace[i], steps[i]);
    CleanupStepIsHarmless(hash, trace[i], steps[i]);
  }

  /**
   * What makes the cleanup safe is that a row still pending owns no object: deleting an upload's key keeps
   * every asset whole exactly when no asset lives at that key, and a pending upload's key never holds one.
   */
  lemma DeletingAKeyIsSafeExactly(hash: Bytes -> string, s: State, u: Id)
    requires Inv(hash, s) && u in s.uploads
    ensures var s' := s.(objects := s.objects - {KeyOf(s, u)});
            (forall a | a in s'.assets :: AssetOk(hash, s', a)) <==> NoAssetAt(s.assets, KeyOf(s, u))
    ensures s.uploads[u].status.Pending? ==> NoAssetAt(s.assets, KeyOf(s, u))
  {
    var s' := s.(objects := s.objects - {KeyOf(s, u)});
    assert UploadOk(s, u);
    if NoAssetAt(s.assets, KeyOf(s, u)) {
      forall a | a in s'.assets ensures AssetOk(hash, s', a) {
        assert AssetOk(hash, s, a);
      }
    } else {
      var a :| a in s.assets && s.assets[a].storageKey == KeyOf(s, u);
      assert !AssetOk(hash, s', a);
    }
  }

  // ----- Every object is accounted for

  /** The call has written the object at this key, and no visible asset owns it yet. */
  predicate HoldsAt(s: State, c: Id, key: Key) {
    At(s, c, true) && HoldsObject(s, s.calls[c]) && DraftKey(s, s.calls[c].upload) == key
  }

  predicate HeldByCall(s: State, key: Key) {
    exists c | c in s.calls :: HoldsAt(s, c, key)
  }

  /** The object at a key belongs to an asset, to a call that will link or delete it, or to nobody. */
  predicate Accounted(s: State, key: Key) {
    key in s.orphans || !NoAssetAt(s.assets, key) || HeldByCall(s, key)
  }

  /** An orphan is an object that no asset and no call owns. */
  predicate OrphanOk(s: State, key: Key) {
    key in s.objects && NoAssetAt(s.assets, key) && !HeldByCall(s, key)
  }

  /** An asset that is not yet visible has a session. */
  predicate Owned(s: State, a: Id) {
    exists c | c in s.calls :: OwnsAsset(s, s.calls[c]) && s.calls[c].asset == a
  }

  ghost predicate Tidy(s: State) {
    && (forall key | key in s.objects :: Accounted(s, key))
    && (forall key | key in s.orphans :: OrphanOk(s, key))
    && (forall a | a in s.newAssets :: Owned(s, a))
  }

  lemma OthersSeeTheSame(hash: Bytes -> string, s: State, step: Step, c: Id)
    requires Inv(hash, s) && Enabled(hash, s, step) && c in s.calls && (ByCall(step) ==> c != step.call)
    ensures SameFor(s, Apply(hash, s, step), c) && CallOk(hash, s, c)
  {
    ActorsAreOk(hash, s, step);
    assert CallOk(hash, s, c);
    assert ByCall(step) && step.call in s.calls ==> Distinct(s, c, step.call);
    assert ByCall(step) && step.call !in s.calls ==> Distinct(s, c, step.call);
    OtherCallsSeeTheSame(hash, s, step, c);
  }

  lemma OthersHoldTheSame(hash: Bytes -> string, s: State, step: Step, c: Id, key: Key)
    requires Inv(hash, s) && Enabled(hash, s, step) && (ByCall(step) ==> c != step.call)
    ensures HoldsAt(s, c, key) <==> HoldsAt(Apply(hash, s, step), c, key)
  {
    OtherCallsArePut(hash, s, step, c);
    if c in s.calls {
      OthersSeeTheSame(hash, s, step, c);
    }
  }

  /** A call comes to hold an object by storing it. */
  lemma RowActorHoldsItsObject(hash: Bytes -> string, s: State, step: Step, key: Key)
    requires Inv(hash, s) && Enabled(hash, s, step) && IsRowStep(step)
    ensures HoldsAt(Apply(hash, s, step), step.call, key) ==> HoldsAt(s, step.call, key)
  {
    Frame(hash, s, step);
    if HoldsAt(Apply(hash, s, step), step.call, key) {
      RowActorAdvances(hash, s, step);
      RowActorKeepsItsWork(hash, s, step);
    }
  }

  lemma OtherActorHoldsItsObject(hash: Bytes -> string, s: State, step: Step, key: Key)
    requires Inv(hash, s) && Enabled(hash, s, step) && ByCall(step) && !IsRowStep(step) && !step.StoreStep?
    ensures HoldsAt(Apply(hash, s, step), step.call, key) ==> HoldsAt(s, step.call, key)
  {
    ActorsAreOk(hash, s, step);
    match step
    case DropDuplicateStep(call, deleted) => assert Apply(hash, s, step) == DuplicateDropped(s, call, deleted);
    case FindStep(call, found) => assert Apply(hash, s, step) == Found(s, call, found);
    case CreateAssetStep(call, a, ok) => assert Apply(hash, s, step) == AssetCreated(hash, s, call, a, ok);
    case LookupStep(_, _, _, _, _) =>
    case CommitStep(call) => Frame(hash, s, step);
    case RollbackStep(call) => Frame(hash, s, step);
  }

  lemma StoringActorHoldsItsObject(hash: Bytes -> string, s: State, step: Step, key: Key)
    requires Inv(hash, s) && Enabled(hash, s, step) && step.StoreStep?
    ensures var s' := Apply(hash, s, step);
            HoldsAt(s', step.call, key) <==> key == DraftKey(s, s.calls[step.call].upload)
    ensures DraftKey(s, s.calls[step.call].upload) !in s.objects
  {
    ActorsAreOk(hash, s, step);
    assert Apply(hash, s, step) == Received(s, step.call, step.received);
  }

  /** Nobody takes up an object that nobody holds. */
  lemma FreeObjectsStayFree(hash: Bytes -> string, s: State, step: Step, key: Key)
    requires Inv(hash, s) && Enabled(hash, s, step) && key in s.objects && !HeldByCall(s, key)
    ensures !HeldByCall(Apply(hash, s, step), key)
  {
    var s' := Apply(hash, s, step);
    forall c | c in s'.calls ensures !HoldsAt(s', c, key) {
      assert c in s.calls ==> !HoldsAt(s, c, key);
      if !ByCall(step) || c != step.call {
        OthersHoldTheSame(hash, s, step, c, key);
      } else if IsRowStep(step) {
        RowActorHoldsItsObject(hash, s, step, key);
      } else if step.StoreStep? {
        StoringActorHoldsItsObject(hash, s, step, key);
      } else {
        OtherActorHoldsItsObject(hash, s, step, key);
      }
    }
  }

  lemma NothingElseOrphans(hash: Bytes -> string, s: State, step: Step)
    requires Enabled(hash, s, step)
    requires !step.DropDuplicateStep? && !step.CreateAssetStep? && !step.RollbackStep?
    ensures Apply(hash, s, step).orphans == s.orphans
  {
    if step.StoreStep? {
      assert Apply(hash, s, step) == Received(s, step.call, step.received);
    } else {
      Frame(hash, s, step);
    }
  }

  lemma OrphansStayListed(hash: Bytes -> string, s: State, step: Step, key: Key)
    requires Enabled(hash, s, step) && key in s.orphans
    ensures key in Apply(hash, s, step).orphans
  {
    Frame(hash, s, step);
  }

  lemma OrphanIsNotTouched(hash: Bytes -> string, s: State, step: Step, key: Key)
    requires Inv(hash, s) && Enabled(hash, s, step) && OrphanOk(s, key)
    ensures SameObject(s, Apply(hash, s, step), key) && NoAssetAt(Apply(hash, s, step).assets, key)
  {
    ActorsAreOk(hash, s, step);
    if IsObjectStep(step) || step.CommitStep? {
      assert !HoldsAt(s, step.call, key);
    }
    StepsWriteTheirOwnKey(hash, s, step, key);
    if step.CommitStep? {
      Frame(hash, s, step);
    } else {
      FreeKeysStayFree(hash, s, step, key);
    }
  }

  /** Nothing ever links or removes an orphan. */
  lemma OrphanStays(hash: Bytes -> string, s: State, step: Step, key: Key)
    requires Inv(hash, s) && Enabled(hash, s, step) && OrphanOk(s, key)
    ensures OrphanOk(Apply(hash, s, step), key) && Apply(hash, s, step).objects[key] == s.objects[key]
  {
    OrphanIsNotTouched(hash, s, step, key);
    FreeObjectsStayFree(hash, s, step, key);
  }

  lemma CreatorOrphansWhatItHeld(hash: Bytes -> string, s: State, c: Id, a: Id, reachable: bool, key: Key)
    requires At(s, c, true) && s.calls[c].Missed?
    ensures var s' := AssetCreated(hash, s, c, a, reachable);
            && s'.objects == s.objects && s'.assets == s.assets
            && (key in s'.orphans && key !in s.orphans ==> HoldsAt(s, c, key) && !HoldsAt(s', c, key))
  {
  }

  lemma DropperOrphansWhatItHeld(hash: Bytes -> string, s: State, c: Id, deleted: bool, key: Key)
    requires At(s, c, true) && s.calls[c].Matched? && CallOk(hash, s, c) && HashesApart(s)
    ensures var s' := DuplicateDropped(s, c, deleted);
            && s'.assets == s.assets
            && (key in s'.orphans && key !in s.orphans ==>
                  s'.objects == s.objects && HoldsAt(s, c, key) && !HoldsAt(s', c, key))
  {
  }

  /** Only the step of a call that holds an object can make an orphan of it. */
  lemma NewOrphansWereHeld(hash: Bytes -> string, s: State, step: Step, key: Key)
    requires Inv(hash, s) && Enabled(hash, s, step) && key in Apply(hash, s, step).orphans && key !in s.orphans
    ensures step.DropDuplicateStep? || step.CreateAssetStep? || step.RollbackStep?
    ensures HoldsAt(s, step.call, key) && !HoldsAt(Apply(hash, s, step), step.call, key)
    ensures Apply(hash, s, step).objects == s.objects && Apply(hash, s, step).assets == s.assets
  {
    if step.CreateAssetStep? {
      CreatorOrphansWhatItHeld(hash, s, step.call, step.newAsset, step.reachable, key);
    } else if step.DropDuplicateStep? {
      assert CallOk(hash, s, step.call);
      DropperOrphansWhatItHeld(hash, s, step.call, step.deleted, key);
    } else if step.RollbackStep? {
      assert Apply(hash, s, step) == RolledBack(s, step.call);
      Frame(hash, s, step);
    } else {
      NothingElseOrphans(hash, s, step);
    }
  }

  lemma NewOrphanIsOk(hash: Bytes -> string, s: State, step: Step, key: Key)
    requires Inv(hash, s) && Enabled(hash, s, step) && key in Apply(hash, s, step).orphans && key !in s.orphans
    ensures OrphanOk(Apply(hash, s, step), key)
  {
    var s' := Apply(hash, s, step);
    NewOrphansWereHeld(hash, s, step, key);
    assert CallOk(hash, s, step.call);
    forall c | c in s'.calls && c != step.call ensures !HoldsAt(s', c, key) {
      OthersHoldTheSame(hash, s, step, c, key);
      assert c in s.calls ==> Distinct(s, c, step.call);
    }
  }

  lemma FoundAccounts(s: State, c: Id, found: Option<Id>, key: Key)
    requires HoldsAt(s, c, key) && s.calls[c].Stored?
    ensures Accounted(Found(s, c, found), key)
  {
    assert HoldsAt(Found(s, c, found), c, key);
  }

  lemma CreatedAccounts(hash: Bytes -> string, s: State, c: Id, a: Id, reachable: bool, key: Key)
    requires HoldsAt(s, c, key) && s.calls[c].Missed?
    ensures Accounted(AssetCreated(hash, s, c, a, reachable), key)
  {
    var s' := AssetCreated(hash, s, c, a, reachable);
    assert key in s'.orphans || HoldsAt(s', c, key);
  }

  lemma DroppedAccounts(s: State, c: Id, deleted: bool, key: Key)
    requires HoldsAt(s, c, key) && s.calls[c].Matched?
    ensures var s' := DuplicateDropped(s, c, deleted); key !in s'.objects || Accounted(s', key)
  {
  }

  lemma FinishedAccounts(hash: Bytes -> string, s: State, c: Id, now: Time, key: Key)
    requires HoldsAt(s, c, key) && s.calls[c].Linked?
    ensures Accounted(Finished(hash, s, c, now), key)
  {
    assert HoldsAt(Finished(hash, s, c, now), c, key);
  }

  lemma EndAccountsForItsObject(hash: Bytes -> string, s: State, step: Step, key: Key)
    requires Inv(hash, s) && Enabled(hash, s, step) && IsEnd(step) && HoldsAt(s, step.call, key)
    ensures Accounted(Apply(hash, s, step), key)
  {
    var s', c := Apply(hash, s, step), step.call;
    if step.CommitStep? {
      assert CallOk(hash, s, c);
      Frame(hash, s, step);
      assert s'.assets[s.calls[c].asset].storageKey == key;
    } else {
      assert s' == RolledBack(s, c);
    }
  }

  /** What becomes of an object whose call takes a step. */
  lemma ActorAccountsForItsObject(hash: Bytes -> string, s: State, step: Step, key: Key)
    requires Inv(hash, s) && Enabled(hash, s, step) && ByCall(step) && HoldsAt(s, step.call, key) && !IsEnd(step)
    ensures key !in Apply(hash, s, step).objects || Accounted(Apply(hash, s, step), key)
  {
    match step
    case FindStep(c, found) => FoundAccounts(s, c, found, key);
    case CreateAssetStep(c, a, ok) => CreatedAccounts(hash, s, c, a, ok, key);
    case DropDuplicateStep(c, deleted) => DroppedAccounts(s, c, deleted, key);
    case CompleteStep(c, now) => FinishedAccounts(hash, s, c, now, key);
  }

  lemma KeptObjectStaysAccounted(hash: Bytes -> string, s: State, step: Step, key: Key)
    requires Inv(hash, s) && Enabled(hash, s, step) && Accounted(s, key)
    ensures key !in Apply(hash, s, step).objects || Accounted(Apply(hash, s, step), key)
  {
    var s' := Apply(hash, s, step);
    ActorsAreOk(hash, s, step);
    if key in s.orphans {
      OrphansStayListed(hash, s, step, key);
    } else if !NoAssetAt(s.assets, key) {
      var a :| a in s.assets && s.assets[a].storageKey == key;
      StepsKeepAssets(hash, s, step);
      assert a in s'.assets && s'.assets[a].storageKey == key;
    } else {
      var c :| c in s.calls && HoldsAt(s, c, key);
      if ByCall(step) && step.call == c {
        if IsEnd(step) {
          EndAccountsForItsObject(hash, s, step, key);
        } else {
          ActorAccountsForItsObject(hash, s, step, key);
        }
      } else {
        OthersHoldTheSame(hash, s, step, c, key);
      }
    }
  }

  lemma OnlyStoresAddObjects(hash: Bytes -> string, s: State, step: Step, key: Key)
    requires Enabled(hash, s, step) && key in Apply(hash, s, step).objects
    ensures key in s.objects || (step.StoreStep? && key == DraftKey(s, s.calls[step.call].upload))
  {
    match step
    case StoreStep(c, content) => assert Apply(hash, s, step) == Received(s, c, content);
    case DropDuplicateStep(c, deleted) => assert Apply(hash, s, step) == DuplicateDropped(s, c, deleted);
    case DeleteKeyStep(id) => assert Apply(hash, s, step) == KeyDeleted(s, id);
    case _ => Frame(hash, s, step);
  }

  lemma NewObjectIsAccounted(hash: Bytes -> string, s: State, step: Step, key: Key)
    requires Inv(hash, s) && Enabled(hash, s, step) && key !in s.objects && key in Apply(hash, s, step).objects
    ensures Accounted(Apply(hash, s, step), key)
  {
    OnlyStoresAddObjects(hash, s, step, key);
    StoringActorHoldsItsObject(hash, s, step, key);
  }

  lemma NewAssetIsOwned(hash: Bytes -> string, s: State, step: Step, a: Id)
    requires Inv(hash, s) && Enabled(hash, s, step) && a in Apply(hash, s, step).newAssets && a !in s.newAssets
    ensures Owned(Apply(hash, s, step), a)
  {
    var s' := Apply(hash, s, step);
    if step.CreateAssetStep? {
      assert s' == AssetCreated(hash, s, step.call, step.newAsset, step.reachable);
      assert OwnsAsset(s', s'.calls[step.call]) && s'.calls[step.call].asset == a;
    } else {
      Frame(hash, s, step);
    }
  }

  lemma OwnerKeepsItsAsset(hash: Bytes -> string, s: State, step: Step)
    requires Enabled(hash, s, step) && ByCall(step) && step.call in s.calls && OwnsAsset(s, s.calls[step.call])
    requires s.calls[step.call].asset in Apply(hash, s, step).newAssets
    ensures step.CompleteStep? && Owned(Apply(hash, s, step), s.calls[step.call].asset)
  {
    if step.CompleteStep? {
      var s', c := Finished(hash, s, step.call, step.done), step.call;
      assert Apply(hash, s, step) == s' && OwnsAsset(s', s'.calls[c]) && s'.calls[c].asset == s.calls[c].asset;
    } else {
      Frame(hash, s, step);
    }
  }

  lemma OwnedAssetStaysOwned(hash: Bytes -> string, s: State, step: Step, a: Id)
    requires Inv(hash, s) && Enabled(hash, s, step) && Owned(s, a) && a in Apply(hash, s, step).newAssets
    ensures Owned(Apply(hash, s, step), a)
  {
    var s' := Apply(hash, s, step);
    var c :| c in s.calls && OwnsAsset(s, s.calls[c]) && s.calls[c].asset == a;
    if ByCall(step) && step.call == c {
      OwnerKeepsItsAsset(hash, s, step);
    } else {
      OthersSeeTheSame(hash, s, step, c);
      assert OwnsAsset(s', s'.calls[c]);
    }
  }

  lemma NextKeepsTidy(hash: Bytes -> string, s: State, step: Step)
    requires Inv(hash, s) && Tidy(s) && Enabled(hash, s, step)
    ensures Tidy(Apply(hash, s, step))
  {
    var s' := Apply(hash, s, step);
    forall key | key in s'.objects ensures Accounted(s', key) {
      if key in s.objects {
        KeptObjectStaysAccounted(hash, s, step, key);
      } else {
        NewObjectIsAccounted(hash, s, step, key);
      }
    }
    forall key | key in s'.orphans ensures OrphanOk(s', key) {
      if key in s.orphans {
        OrphanStays(hash, s, step, key);
      } else {
        NewOrphanIsOk(hash, s, step, key);
      }
    }
    forall a | a in s'.newAssets ensures Owned(s', a) {
      if a in s.newAssets {
        OwnedAssetStaysOwned(hash, s, step, a);
      } else {
        NewAssetIsOwned(hash, s, step, a);
      }
    }
  }

  lemma {:induction false} RunsKeepTidy(hash: Bytes -> string, trace: seq<State>, steps: seq<Step>, i: nat)
    requires Run(hash, trace, steps) && i < |trace|
    ensures Tidy(trace[i])
  {
    if i > 0 {
      RunsKeepTidy(hash, trace, steps, i - 1);
      RunsKeepInv(hash, trace, steps, i - 1);
      NextKeepsTidy(hash, trace[i - 1], steps[i - 1]);
    }
  }

  /** In every run, whenever no call is under way, an object is either an asset's or an orphan, and not both. */
  lemma ObjectsAreAssetsOrOrphans(hash: Bytes -> string, trace: seq<State>, steps: seq<Step>, i: nat)
    requires Run(hash, trace, steps) && i < |trace| && trace[i].calls == map[]
    ensures forall key :: key in trace[i].objects <==> key in trace[i].orphans || !NoAssetAt(trace[i].assets, key)
    ensures forall key :: key in trace[i].orphans ==> NoAssetAt(trace[i].assets, key)
  {
    var s := trace[i];
    RunsKeepTidy(hash, trace, steps, i);
    RunsKeepInv(hash, trace, steps, i);
    assert forall key | key in s.objects :: Accounted(s, key);
    assert forall a | a in s.assets :: AssetOk(hash, s, a);
    assert forall key | key in s.orphans :: OrphanOk(s, key);
  }

  /** An orphan stays one. */
  predicate OrphanKept(s: State, s': State, key: Key) {
    OrphanOk(s, key) ==> OrphanOk(s', key) && s'.objects[key] == s.objects[key]
  }

  lemma {:induction false} KeptOrphansStay(trace: seq<State>, i: nat, j: nat, key: Key)
    requires i <= j < |trace|
    requires forall k | i <= k < j :: OrphanKept(trace[k], trace[k + 1], key)
    ensures OrphanKept(trace[i], trace[j], key)
    decreases j - i
  {
    if i < j {
      KeptOrphansStay(trace, i, j - 1, key);
      assert OrphanKept(trace[j - 1], trace[j - 1 + 1], key);
    }
  }

  /** In every run an orphan stays in the store for ever: no asset takes it up and no cleanup removes it. */
  lemma OrphansAreForEver(hash: Bytes -> string, trace: seq<State>, steps: seq<Step>, i: nat, j: nat, key: Key)
    requires Run(hash, trace, steps) && i <= j < |trace| && key in trace[i].orphans
    ensures key in trace[i].objects && key in trace[j].objects && trace[j].objects[key] == trace[i].objects[key]
    ensures NoAssetAt(trace[j].assets, key)
  {
    forall k | i <= k < j ensures OrphanKept(trace[k], trace[k + 1], key) {
      RunsKeepInv(hash, trace, steps, k);
      if OrphanOk(trace[k], key) {
        OrphanStays(hash, trace[k], steps[k], key);
      }
    }
    KeptOrphansStay(trace, i, j, key);
    RunsKeepTidy(hash, trace, steps, i);
  }

  // ----- When objects are orphaned

  /**
   * A fault after an object is stored: a delete or an insert fails, or the session of a call that has an object
   * rolls back.
   */
  predicate Faulty(s: State, step: Step) {
    || (step.DropDuplicateStep? && !step.deleted)
    || (step.CreateAssetStep? && !step.reachable)
    || (step.RollbackStep? && step.call in s.calls && HoldsObject(s, s.calls[step.call]))
  }

  /** The database rejects the asset: another session has committed one with its hash. */
  predicate IsRejected(hash: Bytes -> string, s: State, step: Step) {
    step.CreateAssetStep? && step.call in s.calls && s.calls[step.call].Missed?
    && HashTaken(s.assets, hash(s.calls[step.call].content))
  }

  lemma HeldObjectsAreNoOrphans(s: State, c: Id)
    requires Tidy(s) && c in s.calls && At(s, c, true) && HoldsObject(s, s.calls[c])
    ensures DraftKey(s, s.calls[c].upload) !in s.orphans
  {
    var key := DraftKey(s, s.calls[c].upload);
    assert HoldsAt(s, c, key);
    assert key in s.orphans ==> OrphanOk(s, key);
  }

  lemma ResolvingOrphans(hash: Bytes -> string, s: State, step: Step)
    requires Inv(hash, s) && Tidy(s) && Enabled(hash, s, step) && (step.DropDuplicateStep? || step.CreateAssetStep?)
    ensures Apply(hash, s, step).orphans != s.orphans <==> Faulty(s, step) || IsRejected(hash, s, step)
  {
    HeldObjectsAreNoOrphans(s, step.call);
    match step
    case DropDuplicateStep(c, deleted) => assert Apply(hash, s, step) == DuplicateDropped(s, c, deleted);
    case CreateAssetStep(c, a, ok) => assert Apply(hash, s, step) == AssetCreated(hash, s, c, a, ok);
  }

  lemma RollingBackOrphans(hash: Bytes -> string, s: State, step: Step)
    requires Inv(hash, s) && Tidy(s) && Enabled(hash, s, step) && step.RollbackStep?
    ensures Apply(hash, s, step).orphans != s.orphans <==> Faulty(s, step)
  {
    assert Apply(hash, s, step) == RolledBack(s, step.call);
    assert CallOk(hash, s, step.call);
    if HoldsObject(s, s.calls[step.call]) {
      HeldObjectsAreNoOrphans(s, step.call);
    }
  }

  /** In every state of a run, a step orphans an object if and only if it is a fault or a rejected asset. */
  lemma OrphansComeFrom(hash: Bytes -> string, trace: seq<State>, steps: seq<Step>, i: nat)
    requires Run(hash, trace, steps) && i < |steps|
    ensures trace[i + 1].orphans != trace[i].orphans <==>
              Faulty(trace[i], steps[i]) || IsRejected(hash, trace[i], steps[i])
  {
    var s, step := trace[i], steps[i];
    RunsKeepInv(hash, trace, steps, i);
    RunsKeepTidy(hash, trace, steps, i);
    if step.DropDuplicateStep? || step.CreateAssetStep? {
      ResolvingOrphans(hash, s, step);
    } else if step.RollbackStep? {
      RollingBackOrphans(hash, s, step);
    } else {
      NothingElseOrphans(hash, s, step);
    }
  }

  /** The call is about to create the asset with this hash, or has created it in its session. */
  predicate StoresNew(hash: Bytes -> string, s: State, c: Id, sha256: string) {
    c in s.calls && (s.calls[c].Missed? || OwnsAsset(s, s.calls[c])) && hash(s.calls[c].content) == sha256
  }

  /** The step finds no asset for its content while another open session has missed it, or holds it uncommitted. */
  predicate Overlaps(hash: Bytes -> string, s: State, step: Step, other: Id) {
    && step.FindStep? && step.match_.None? && step.call in s.calls && s.calls[step.call].Stored?
    && other != step.call && StoresNew(hash, s, other, hash(s.calls[step.call].content))
  }

  predicate Apart(hash: Bytes -> string, s: State, step: Step) {
    forall other | other in s.calls :: !Overlaps(hash, s, step, other)
  }

  /** Up to state i there was no fault, and no find overlapped another session that stores the same content. */
  ghost predicate Orderly(hash: Bytes -> string, trace: seq<State>, steps: seq<Step>, i: nat)
    requires |trace| == |steps| + 1
  {
    forall k | 0 <= k < i && k < |steps| :: !Faulty(trace[k], steps[k]) && Apart(hash, trace[k], steps[k])
  }

  /** Nobody has committed the content that a call missed, and no other session is about to. */
  ghost predicate MissOk(hash: Bytes -> string, s: State, c: Id) {
    c in s.calls && s.calls[c].Missed? ==>
      && !HashTaken(s.assets, hash(s.calls[c].content))
      && forall other | other != c :: !StoresNew(hash, s, other, hash(s.calls[c].content))
  }

  ghost predicate MissesOk(hash: Bytes -> string, s: State) {
    forall c | c in s.calls :: MissOk(hash, s, c)
  }

  lemma RowActorStoresTheSame(hash: Bytes -> string, s: State, step: Step, sha256: string)
    requires Inv(hash, s) && Enabled(hash, s, step) && IsRowStep(step)
    ensures StoresNew(hash, Apply(hash, s, step), step.call, sha256) ==> StoresNew(hash, s, step.call, sha256)
  {
    Frame(hash, s, step);
    if StoresNew(hash, Apply(hash, s, step), step.call, sha256) {
      RowActorAdvances(hash, s, step);
    }
  }

  lemma EndedActorStoresNothing(hash: Bytes -> string, s: State, step: Step, sha256: string)
    requires Enabled(hash, s, step) && IsEnd(step)
    ensures !StoresNew(hash, Apply(hash, s, step), step.call, sha256)
  {
    Frame(hash, s, step);
  }

  lemma ObjectActorStoresNothing(hash: Bytes -> string, s: State, step: Step, sha256: string)
    requires Inv(hash, s) && Enabled(hash, s, step) && IsObjectStep(step)
    ensures !StoresNew(hash, Apply(hash, s, step), step.call, sha256)
  {
    assert CallOk(hash, s, step.call);
    Frame(hash, s, step);
    if step.call in Apply(hash, s, step).calls {
      ObjectActorAdvances(hash, s, step);
    }
  }

  lemma QuietActorStoresTheSame(hash: Bytes -> string, s: State, step: Step, sha256: string)
    requires Enabled(hash, s, step) && IsQuiet(step) && StoresNew(hash, Apply(hash, s, step), step.call, sha256)
    ensures || StoresNew(hash, s, step.call, sha256)
            || (step.FindStep? && step.match_.None? && s.calls[step.call].Stored?
                && hash(s.calls[step.call].content) == sha256)
  {
    if step.FindStep? {
      FinderAdvances(hash, s, step);
    } else if step.CreateAssetStep? {
      CreatorAdvances(hash, s, step);
    }
  }

  /** A session comes to store a content by a find that finds nothing. */
  lemma StoringComesFromFinds(hash: Bytes -> string, s: State, step: Step, c: Id, sha256: string)
    requires Inv(hash, s) && Enabled(hash, s, step) && StoresNew(hash, Apply(hash, s, step), c, sha256)
    ensures c in s.calls
    ensures || StoresNew(hash, s, c, sha256)
            || (step == FindStep(c, None) && s.calls[c].Stored? && hash(s.calls[c].content) == sha256)
  {
    if !ByCall(step) || c != step.call {
      OtherCallsArePut(hash, s, step, c);
      OthersSeeTheSame(hash, s, step, c);
    } else if IsRowStep(step) {
      RowActorStoresTheSame(hash, s, step, sha256);
    } else if IsQuiet(step) {
      QuietActorStoresTheSame(hash, s, step, sha256);
    } else if IsObjectStep(step) {
      ObjectActorStoresNothing(hash, s, step, sha256);
    } else {
      EndedActorStoresNothing(hash, s, step, sha256);
    }
  }

  /** A missed call missed just now, or before and with the same content. */
  lemma MissesComeFromFinds(hash: Bytes -> string, s: State, step: Step, c: Id)
    requires Enabled(hash, s, step) && c in Apply(hash, s, step).calls && Apply(hash, s, step).calls[c].Missed?
    ensures c in s.calls
    ensures || Apply(hash, s, step).calls[c] == s.calls[c]
            || (&& step == FindStep(c, None) && s.calls[c].Stored?
                && s.calls[c].content == Apply(hash, s, step).calls[c].content)
  {
    if !ByCall(step) || c != step.call {
      OtherCallsArePut(hash, s, step, c);
    } else if step.FindStep? {
      FinderAdvances(hash, s, step);
    } else if step.CreateAssetStep? {
      CreatorAdvances(hash, s, step);
    } else if IsRowStep(step) {
      RowActorAdvances(hash, s, step);
    } else if IsObjectStep(step) {
      ObjectActorAdvances(hash, s, step);
    } else if step.CommitStep? {
      Frame(hash, s, step);
    } else if step.RollbackStep? {
      Frame(hash, s, step);
    }
  }

  /** An asset becomes visible by the commit of the session that created it. */
  lemma AssetsComeFromCommits(hash: Bytes -> string, s: State, step: Step, sha256: string)
    requires Inv(hash, s) && Enabled(hash, s, step)
    requires HashTaken(Apply(hash, s, step).assets, sha256) && !HashTaken(s.assets, sha256)
    ensures step.CommitStep? && StoresNew(hash, s, step.call, sha256)
  {
    if step.CommitStep? {
      assert CallOk(hash, s, step.call);
      Frame(hash, s, step);
    } else if step.RollbackStep? {
      Frame(hash, s, step);
    } else {
      VisibleAssetsStay(hash, s, step);
    }
  }

  lemma NextKeepsMissNew(hash: Bytes -> string, s: State, step: Step, c: Id)
    requires Inv(hash, s) && MissesOk(hash, s) && Enabled(hash, s, step)
    requires c in Apply(hash, s, step).calls && Apply(hash, s, step).calls[c].Missed?
    ensures !HashTaken(Apply(hash, s, step).assets, hash(Apply(hash, s, step).calls[c].content))
  {
    var s' := Apply(hash, s, step);
    var sha256 := hash(s'.calls[c].content);
    MissesComeFromFinds(hash, s, step, c);
    assert MissOk(hash, s, c);
    assert !HashTaken(s.assets, sha256);
    if HashTaken(s'.assets, sha256) {
      AssetsComeFromCommits(hash, s, step, sha256);
      Frame(hash, s, step);
    }
  }

  lemma NextKeepsMissAlone(hash: Bytes -> string, s: State, step: Step, c: Id, other: Id)
    requires Inv(hash, s) && MissesOk(hash, s) && Enabled(hash, s, step) && Apart(hash, s, step) && c != other
    requires c in Apply(hash, s, step).calls && Apply(hash, s, step).calls[c].Missed?
    ensures !StoresNew(hash, Apply(hash, s, step), other, hash(Apply(hash, s, step).calls[c].content))
  {
    var s' := Apply(hash, s, step);
    var sha256 := hash(s'.calls[c].content);
    MissesComeFromFinds(hash, s, step, c);
    assert MissOk(hash, s, c);
    assert !Overlaps(hash, s, step, c);
    assert other in s.calls ==> !Overlaps(hash, s, step, other);
    if StoresNew(hash, s', other, sha256) {
      StoringComesFromFinds(hash, s, step, other, sha256);
    }
  }

  lemma NextKeepsMisses(hash: Bytes -> string, s: State, step: Step)
    requires Inv(hash, s) && MissesOk(hash, s) && Enabled(hash, s, step) && Apart(hash, s, step)
    ensures MissesOk(hash, Apply(hash, s, step))
  {
    var s' := Apply(hash, s, step);
    forall c | c in s'.calls ensures MissOk(hash, s', c) {
      if s'.calls[c].Missed? {
        NextKeepsMissNew(hash, s, step, c);
        forall other | other != c ensures !StoresNew(hash, s', other, hash(s'.calls[c].content)) {
          NextKeepsMissAlone(hash, s, step, c, other);
        }
      }
    }
  }

  /** Without faults and without overlapping finds, no object is ever orphaned. */
  lemma {:induction false} NoOrphans(hash: Bytes -> string, trace: seq<State>, steps: seq<Step>, i: nat)
    requires Run(hash, trace, steps) && i < |trace| && Orderly(hash, trace, steps, i)
    ensures trace[i].orphans == trace[0].orphans && MissesOk(hash, trace[i])
  {
    if i > 0 {
      var s, step := trace[i - 1], steps[i - 1];
      NoOrphans(hash, trace, steps, i - 1);
      assert !Faulty(s, step) && Apart(hash, s, step);
      RunsKeepInv(hash, trace, steps, i - 1);
      NextKeepsMisses(hash, s, step);
      OrphansComeFrom(hash, trace, steps, i - 1);
      assert step.CreateAssetStep? ==> MissOk(hash, s, step.call);
    }
  }

  /**
   * In a run without faults and without overlapping finds, the object keys are exactly the assets' storage keys,
   * and what lay there before, whenever no call is under way: uploads that failed or repeated known content left
   * nothing.
   */
  lemma ObjectsAreTheAssets(hash: Bytes -> string, trace: seq<State>, steps: seq<Step>, i: nat)
    requires Run(hash, trace, steps) && i < |trace| && Orderly(hash, trace, steps, i) && trace[i].calls == map[]
    ensures trace[i].objects.Keys
         == trace[0].orphans + set a | a in trace[i].assets :: trace[i].assets[a].storageKey
  {
    var s := trace[i];
    NoOrphans(hash, trace, steps, i);
    ObjectsAreAssetsOrOrphans(hash, trace, steps, i);
    var keys := set a | a in s.assets :: s.assets[a].storageKey;
    forall key ensures key in s.objects <==> key in s.orphans + keys {
      assert key in keys <==> !NoAssetAt(s.assets, key);
    }
  }

  /**
   * Then also no content is stored twice: however many uploads of it there were, by whichever users, they
   * share one asset and one object.
   */
  lemma EachContentIsStoredOnce(hash: Bytes -> string, trace: seq<State>, steps: seq<Step>, i: nat)
    requires Run(hash, trace, steps) && i < |trace| && Orderly(hash, trace, steps, i) && trace[i].calls == map[]
    ensures var s := trace[i];
            && (forall k1, k2 | k1 in s.objects && k2 in s.objects && hash(s.objects[k1]) == hash(s.objects[k2])
                                && k1 !in trace[0].orphans && k2 !in trace[0].orphans :: k1 == k2)
            && (forall u, v | u in s.uploads && v in s.uploads
                              && s.uploads[u].status.Completed? && s.uploads[v].status.Completed?
                              && s.uploads[u].checksum == s.uploads[v].checksum ::
                  s.uploads[u].assetId == s.uploads[v].assetId)
  {
    var s := trace[i];
    NoOrphans(hash, trace, steps, i);
    ObjectsAreAssetsOrOrphans(hash, trace, steps, i);
    StoreIsConsistent(hash, trace, steps, i);
    forall k1, k2 | k1 in s.objects && k2 in s.objects && hash(s.objects[k1]) == hash(s.objects[k2])
                    && k1 !in trace[0].orphans && k2 !in trace[0].orphans
      ensures k1 == k2
    {
      var a1 :| a1 in s.assets && s.assets[a1].storageKey == k1;
      var a2 :| a2 in s.assets && s.assets[a2].storageKey == k2;
      assert a1 == a2;
    }
  }

  // ----- Finds that overlap another session

  ghost predicate NoFaults(hash: Bytes -> string, trace: seq<State>, steps: seq<Step>) {
    Path(hash, trace, steps) && forall k | 0 <= k < |steps| :: !Faulty(trace[k], steps[k]) && !steps[k].ListStep?
  }

  lemma NoFaultsGrow(hash: Bytes -> string, trace: seq<State>, steps: seq<Step>, step: Step)
    requires NoFaults(hash, trace, steps) && Enabled(hash, trace[|steps|], step)
    requires !Faulty(trace[|steps|], step) && !step.ListStep?
    ensures NoFaults(hash, trace + [Apply(hash, trace[|steps|], step)], steps + [step])
  {
  }

  lemma NoFaultsJoin(hash: Bytes -> string, trace: seq<State>, steps: seq<Step>, trace': seq<State>, steps': seq<Step>)
    requires NoFaults(hash, trace, steps) && NoFaults(hash, trace', steps') && trace[|steps|] == trace'[0]
    ensures NoFaults(hash, trace + trace'[1..], steps + steps')
    ensures (trace + trace'[1..])[|steps| + |steps'|] == trace'[|steps'|]
  {
    PathsJoin(hash, trace, steps, trace', steps');
    var t, p := trace + trace'[1..], steps + steps';
    forall k | 0 <= k < |p| ensures !Faulty(t[k], p[k]) && !p[k].ListStep? {
      if k >= |steps| {
        assert p[k] == steps'[k - |steps|] && t[k] == trace'[k - |steps|];
      }
    }
  }

  /** The call still has its row, its content and its object. */
  predicate StillMissed(s: State, t: State, c: Id) {
    && c in s.calls && c in t.calls && s.calls[c].Missed? && t.calls[c] == s.calls[c]
    && s.calls[c].upload in s.drafts && s.calls[c].upload in t.drafts
    && t.drafts[s.calls[c].upload] == s.drafts[s.calls[c].upload]
  }

  /** A session that owns an asset completes its upload and commits. */
  lemma CreatorPublishes(hash: Bytes -> string, s: State, c: Id, now: Time)
    returns (trace: seq<State>, steps: seq<Step>)
    requires At(s, c, true) && s.calls[c].Linked? && s.calls[c].asset in s.newAssets
    ensures NoFaults(hash, trace, steps) && trace[0] == s && |steps| == 2
    ensures var t, p := trace[2], s.calls[c];
            && t.calls == s.calls - {c} && t.drafts == s.drafts - {p.upload}
            && t.uploads == s.uploads[p.upload :=
                 CompletedUpload(s.drafts[p.upload], hash(p.content), |p.content|, p.asset, now)]
            && t.assets == s.assets[p.asset := s.newAssets[p.asset]] && t.newAssets == s.newAssets - {p.asset}
            && t.objects == s.objects && t.orphans == s.orphans
  {
    var done := Finished(hash, s, c, now);
    assert done.calls - {c} == s.calls - {c} && done.drafts - {s.calls[c].upload} == s.drafts - {s.calls[c].upload};
    trace, steps := [s, done, Committed(done, c)], [CompleteStep(c, now), CommitStep(c)];
  }

  /** What a commit leaves of a call that missed its content. */
  lemma CommitSparesMisses(hash: Bytes -> string, s: State, d: Id, c: Id)
    requires At(s, d, true) && s.calls[d].Done? && s.calls[d].asset in s.newAssets
    requires c != d && At(s, c, true) && s.calls[c].Missed? && Distinct(s, c, d)
    ensures Enabled(hash, s, CommitStep(d)) && StillMissed(s, Committed(s, d), c)
    ensures HashTaken(Committed(s, d).assets, s.newAssets[s.calls[d].asset].sha256)
    ensures forall a | a !in s.assets && a !in s.newAssets ::
              a !in Committed(s, d).assets && a !in Committed(s, d).newAssets
  {
    assert Committed(s, d).assets[s.calls[d].asset] == s.newAssets[s.calls[d].asset];
  }

  /** A session that owns an asset completes its upload, if it has yet to, and commits. */
  lemma OwnerCommits(hash: Bytes -> string, s: State, d: Id, c: Id, now: Time)
    returns (trace: seq<State>, steps: seq<Step>)
    requires At(s, d, true) && OwnsAsset(s, s.calls[d])
    requires c != d && At(s, c, true) && s.calls[c].Missed? && Distinct(s, c, d)
    ensures NoFaults(hash, trace, steps) && trace[0] == s && StillMissed(s, trace[|steps|], c)
    ensures HashTaken(trace[|steps|].assets, s.newAssets[s.calls[d].asset].sha256)
    ensures forall a | a !in s.assets && a !in s.newAssets ::
              a !in trace[|steps|].assets && a !in trace[|steps|].newAssets
  {
    if s.calls[d].Linked? {
      trace, steps := CreatorPublishes(hash, s, d, now);
      assert trace[2].assets[s.calls[d].asset] == s.newAssets[s.calls[d].asset];
    } else {
      CommitSparesMisses(hash, s, d, c);
      trace, steps := [s, Committed(s, d)], [CommitStep(d)];
    }
  }

  /** A call that missed a content creates the asset and commits it. */
  lemma CreatorCommits(hash: Bytes -> string, s: State, d: Id, c: Id, a: Id, now: Time)
    returns (trace: seq<State>, steps: seq<Step>)
    requires At(s, d, true) && s.calls[d].Missed? && a !in s.assets && a !in s.newAssets
    requires !HashTaken(s.assets, hash(s.calls[d].content)) && !HashTaken(s.newAssets, hash(s.calls[d].content))
    requires c != d && At(s, c, true) && s.calls[c].Missed? && Distinct(s, c, d)
    ensures NoFaults(hash, trace, steps) && trace[0] == s && StillMissed(s, trace[|steps|], c)
    ensures HashTaken(trace[|steps|].assets, hash(s.calls[d].content))
    ensures forall b | b != a && b !in s.assets && b !in s.newAssets ::
              b !in trace[|steps|].assets && b !in trace[|steps|].newAssets
  {
    var step := CreateAssetStep(d, a, true);
    var created := AssetCreated(hash, s, d, a, true);
    assert created.newAssets == s.newAssets[a := AssetOf(hash, s, s.calls[d].upload, s.calls[d].content)];
    assert created.calls[d].Linked? && created.calls[c] == s.calls[c] && created.drafts == s.drafts;
    assert Distinct(created, c, d);
    var trace', steps' := OwnerCommits(hash, created, d, c, now);
    NoFaultsJoin(hash, [s, created], [step], trace', steps');
    trace, steps := [s, created] + trace'[1..], [step] + steps';
  }

  lemma OwnersTakeHashes(hash: Bytes -> string, s: State, c: Id)
    requires c in s.calls && CallOk(hash, s, c) && OwnsAsset(s, s.calls[c])
    ensures HashTaken(s.newAssets, hash(s.calls[c].content))
  {
    assert s.newAssets[s.calls[c].asset].sha256 == hash(s.calls[c].content);
  }

  /** One of the sessions that store a content commits it while another call has missed it. */
  lemma SomeoneCommits(hash: Bytes -> string, s: State, other: Id, c: Id, a1: Id, a2: Id, now: Time)
    returns (trace: seq<State>, steps: seq<Step>)
    requires Inv(hash, s) && Tidy(s) && c in s.calls && s.calls[c].Missed? && c != other
    requires StoresNew(hash, s, other, hash(s.calls[c].content)) && !HashTaken(s.assets, hash(s.calls[c].content))
    requires a1 != a2 && a1 !in s.assets && a1 !in s.newAssets && a2 !in s.assets && a2 !in s.newAssets
    ensures NoFaults(hash, trace, steps) && trace[0] == s && StillMissed(s, trace[|steps|], c)
    ensures HashTaken(trace[|steps|].assets, hash(s.calls[c].content))
    ensures a2 !in trace[|steps|].assets && a2 !in trace[|steps|].newAssets
  {
    var sha256 := hash(s.calls[c].content);
    assert CallOk(hash, s, c) && CallOk(hash, s, other);
    if HashTaken(s.newAssets, sha256) {
      var a :| a in s.newAssets && s.newAssets[a].sha256 == sha256;
      assert Owned(s, a);
      var d :| d in s.calls && OwnsAsset(s, s.calls[d]) && s.calls[d].asset == a;
      assert CallOk(hash, s, d) && Distinct(s, c, d);
      trace, steps := OwnerCommits(hash, s, d, c, now);
    } else {
      if OwnsAsset(s, s.calls[other]) {
        OwnersTakeHashes(hash, s, other);
      }
      assert Distinct(s, c, other);
      trace, steps := CreatorCommits(hash, s, other, c, a1, now);
    }
  }

  /** A call that missed a content which another session has committed since is rejected, and its session ends. */
  lemma RejectedCallRollsBack(hash: Bytes -> string, s: State, c: Id, a: Id)
    returns (trace: seq<State>, steps: seq<Step>)
    requires At(s, c, true) && s.calls[c].Missed? && HashTaken(s.assets, hash(s.calls[c].content))
    requires a !in s.assets && a !in s.newAssets && !HashTaken(s.newAssets, hash(s.calls[c].content))
    ensures NoFaults(hash, trace, steps) && trace[0] == s && |steps| == 2
    ensures var t, u := trace[2], s.calls[c].upload;
            && t.calls == s.calls - {c} && t.drafts == s.drafts - {u} && t.uploads == s.uploads
            && t.assets == s.assets && t.newAssets == s.newAssets && t.objects == s.objects
            && t.orphans == s.orphans + {DraftKey(s, u)}
  {
    var rejected := AssetCreated(hash, s, c, a, true);
    trace := [s, rejected, RolledBack(rejected, c)];
    steps := [CreateAssetStep(c, a, true), RollbackStep(c)];
  }

  /** Nothing is left of a call but an orphan at its key. */
  predicate LeftAnOrphan(s: State, call: Id, upload: Id, key: Key) {
    && call !in s.calls && upload !in s.uploads && upload !in s.drafts
    && key in s.orphans && key in s.objects && NoAssetAt(s.assets, key)
  }

  lemma OverlappingCalls(hash: Bytes -> string, trace: seq<State>, steps: seq<Step>, i: nat, other: Id)
    requires Run(hash, trace, steps) && i < |steps| && Overlaps(hash, trace[i], steps[i], other)
    ensures var s, c := trace[i + 1], steps[i].call;
            && Inv(hash, s) && Tidy(s) && c != other && c in s.calls && s.calls[c].Missed?
            && c in trace[i].calls && trace[i].calls[c].Stored? && s.calls[c].upload == trace[i].calls[c].upload
            && StoresNew(hash, s, other, hash(s.calls[c].content)) && !HashTaken(s.assets, hash(s.calls[c].content))
            && s.assets == trace[i].assets && s.newAssets == trace[i].newAssets && s.drafts == trace[i].drafts
  {
    RunsKeepInv(hash, trace, steps, i + 1);
    RunsKeepTidy(hash, trace, steps, i + 1);
    assert Enabled(hash, trace[i], steps[i]);
    assert trace[i + 1] == Found(trace[i], steps[i].call, None);
  }

  /**
   * Conversely, whenever a find overlaps another session, the run has a continuation without any fault in which
   * the call is rejected: its row is gone with its session, and its object stays as an orphan.
   */
  lemma OverlapLeavesAnOrphan(
    hash: Bytes -> string, trace: seq<State>, steps: seq<Step>, i: nat, other: Id, a1: Id, a2: Id, now: Time)
    returns (after: seq<State>, next: seq<Step>)
    requires Run(hash, trace, steps) && i < |steps| && Overlaps(hash, trace[i], steps[i], other)
    requires a1 != a2 && a1 !in trace[i].assets && a1 !in trace[i].newAssets
    requires a2 !in trace[i].assets && a2 !in trace[i].newAssets
    ensures NoFaults(hash, after, next) && after[0] == trace[i + 1]
    ensures var c := steps[i].call;
            var u := trace[i].calls[c].upload;
            At(trace[i], c, true) && LeftAnOrphan(after[|next|], c, u, DraftKey(trace[i], u))
  {
    OverlappingCalls(hash, trace, steps, i, other);
    var s, c := trace[i + 1], steps[i].call;
    assert CallOk(hash, s, c);
    after, next := SomeoneCommits(hash, s, other, c, a1, a2, now);
    var t := after[|next|];
    PathsKeepInv(hash, after, next, |next|);
    assert CallOk(hash, t, c);
    var after', next' := RejectedCallRollsBack(hash, t, c, a2);
    NoFaultsJoin(hash, after, next, after', next');
    after, next := after + after'[1..], next + next';
  }

  // ----- A run of two uploads of one content

  /** The state once a call has inserted its upload and started it. */
  function Registered(
    s: State, call: Id, user: Id, key: Option<string>, id: Id, storageKey: Key, now: Time): State
  {
    s.(drafts := s.drafts[id := NewUpload(user, storageKey, key, now).(status := Processing)],
       calls := s.calls[call := Started(id)])
  }

  lemma RegistrationEffect(s: State, call: Id, user: Id, key: Option<string>, id: Id, storageKey: Key, now: Time)
    requires !KeyTaken(s.uploads, user, key)
    ensures Begun(Inserted(Goto(s, call, Looked(user, key)), call, id, storageKey, now), call)
         == Registered(s, call, user, key, id, storageKey, now)
  {
    var new_ := NewUpload(user, storageKey, key, now);
    assert s.drafts[id := new_][id := new_.(status := Processing)] == s.drafts[id := new_.(status := Processing)];
    assert s.calls[call := Looked(user, key)][call := Created(id)][call := Started(id)] == s.calls[call := Started(id)];
  }

  lemma RegistrationPath(
    hash: Bytes -> string, s: State, call: Id, user: Id, key: Option<string>, id: Id, storageKey: Key, now: Time)
    returns (trace: seq<State>, steps: seq<Step>)
    requires call !in s.calls && FreshUpload(s, id, storageKey)
    requires !KeyTaken(s.uploads, user, key) && !KeyTaken(s.drafts, user, key)
    ensures NoFaults(hash, trace, steps) && trace[0] == s && |steps| == 3
    ensures trace[|steps|] == Registered(s, call, user, key, id, storageKey, now)
  {
    RegistrationEffect(s, call, user, key, id, storageKey, now);
    var s1 := Goto(s, call, Looked(user, key));
    var s2 := Inserted(s1, call, id, storageKey, now);
    assert Enabled(hash, s1, InsertStep(call, id, storageKey, now));
    assert s2.calls[call] == Created(id) && Enabled(hash, s2, StartStep(call));
    trace := [s, s1, s2, Begun(s2, call)];
    steps := [LookupStep(call, user, key, true, None), InsertStep(call, id, storageKey, now), StartStep(call)];
  }

  /** The state once a call of a new upload has stored its object. */
  function Uploaded(s: State, call: Id, user: Id, id: Id, key: Key, content: Bytes, now: Time): State {
    s.(drafts := s.drafts[id := NewUpload(user, key, None, now).(status := Processing)],
       objects := s.objects[key := content], calls := s.calls[call := Stored(id, content)])
  }

  lemma UploadingPath(hash: Bytes -> string, s: State, call: Id, user: Id, id: Id, key: Key, content: Bytes, now: Time)
    returns (trace: seq<State>, steps: seq<Step>)
    requires call !in s.calls && FreshUpload(s, id, key)
    ensures NoFaults(hash, trace, steps) && trace[0] == s && |steps| == 4
    ensures trace[|steps|] == Uploaded(s, call, user, id, key, content, now)
  {
    trace, steps := RegistrationPath(hash, s, call, user, None, id, key, now);
    var registered := trace[|steps|];
    assert registered.calls[call := Stored(id, content)] == s.calls[call := Stored(id, content)];
    NoFaultsGrow(hash, trace, steps, StoreStep(call, content));
    trace, steps := trace + [Received(registered, call, content)], steps + [StoreStep(call, content)];
  }

  /** The state of two uploads of one content that are both stored. */
  function BothStored(content: Bytes): State {
    Empty.(drafts := map[7 := NewUpload(5, "a", None, 0).(status := Processing),
                         8 := NewUpload(6, "b", None, 0).(status := Processing)],
           objects := map["a" := content, "b" := content],
           calls := map[1 := Stored(7, content), 2 := Stored(8, content)])
  }

  lemma BothStoredIsReachable(hash: Bytes -> string, content: Bytes)
    returns (trace: seq<State>, steps: seq<Step>)
    ensures NoFaults(hash, trace, steps) && trace[0] == Empty && |steps| == 8 && trace[8] == BothStored(content)
  {
    trace, steps := UploadingPath(hash, Empty, 1, 5, 7, "a", content, 0);
    var trace2, steps2 := UploadingPath(hash, trace[|steps|], 2, 6, 8, "b", content, 0);
    NoFaultsJoin(hash, trace, steps, trace2, steps2);
    trace, steps := trace + trace2[1..], steps + steps2;
    assert trace[8].calls == BothStored(content).calls;
    assert trace[8].drafts == BothStored(content).drafts;
    assert trace[8].objects == BothStored(content).objects;
  }

  /** The first call has created the asset in its session, and the second has not found it. */
  function CreatedAndMissed(hash: Bytes -> string, s: State, c1: Id, c2: Id, a: Id): State
    requires At(s, c1, true) && At(s, c2, true) && s.calls[c1].Stored? && s.calls[c2].Stored?
  {
    var p, q := s.calls[c1], s.calls[c2];
    s.(newAssets := s.newAssets[a := AssetOf(hash, s, p.upload, p.content)],
       calls := s.calls[c1 := Linked(p.upload, p.content, a)][c2 := Missed(q.upload, q.content)])
  }

  /** The content of two calls, which nobody has stored before them. */
  predicate StoreOneContent(hash: Bytes -> string, s: State, c1: Id, c2: Id, a: Id) {
    && At(s, c1, true) && At(s, c2, true) && c1 != c2 && s.calls[c1].Stored? && s.calls[c2].Stored?
    && s.calls[c1].content == s.calls[c2].content
    && !HashTaken(s.assets, hash(s.calls[c1].content)) && !HashTaken(s.newAssets, hash(s.calls[c1].content))
    && a !in s.assets && a !in s.newAssets
  }

  /** The second call looks before the first has created the asset. */
  lemma EarlyFindMisses(hash: Bytes -> string, s: State, c1: Id, c2: Id, a: Id)
    returns (trace: seq<State>, steps: seq<Step>)
    requires StoreOneContent(hash, s, c1, c2, a)
    ensures NoFaults(hash, trace, steps) && trace[0] == s && |steps| == 3
    ensures trace[3] == CreatedAndMissed(hash, s, c1, c2, a) && Overlaps(hash, trace[1], steps[1], c1)
  {
    var p, q := s.calls[c1], s.calls[c2];
    var s1 := Found(s, c1, None);
    var s2 := Found(s1, c2, None);
    var s3 := AssetCreated(hash, s2, c1, a, true);
    assert s3.newAssets == s.newAssets[a := AssetOf(hash, s, p.upload, p.content)];
    assert s3.calls == s.calls[c1 := Linked(p.upload, p.content, a)][c2 := Missed(q.upload, q.content)];
    trace, steps := [s, s1, s2, s3], [FindStep(c1, None), FindStep(c2, None), CreateAssetStep(c1, a, true)];
  }

  /** The second call looks before the first has committed the asset. */
  lemma LateFindMisses(hash: Bytes -> string, s: State, c1: Id, c2: Id, a: Id)
    returns (trace: seq<State>, steps: seq<Step>)
    requires StoreOneContent(hash, s, c1, c2, a)
    ensures NoFaults(hash, trace, steps) && trace[0] == s && |steps| == 3
    ensures trace[3] == CreatedAndMissed(hash, s, c1, c2, a) && Overlaps(hash, trace[2], steps[2], c1)
  {
    var p, q := s.calls[c1], s.calls[c2];
    var s1 := Found(s, c1, None);
    var s2 := AssetCreated(hash, s1, c1, a, true);
    assert s2.newAssets == s.newAssets[a := AssetOf(hash, s, p.upload, p.content)];
    var s3 := Found(s2, c2, None);
    assert s3.calls == s.calls[c1 := Linked(p.upload, p.content, a)][c2 := Missed(q.upload, q.content)];
    trace, steps := [s, s1, s2, s3], [FindStep(c1, None), CreateAssetStep(c1, a, true), FindStep(c2, None)];
  }

  /** From there on, the first call publishes its upload and the second is rejected. */
  lemma TheFirstWins(hash: Bytes -> string, content: Bytes) returns (trace: seq<State>, steps: seq<Step>)
    ensures NoFaults(hash, trace, steps) && |steps| == 4
    ensures trace[0] == CreatedAndMissed(hash, BothStored(content), 1, 2, 1)
    ensures var s := trace[4];
            && s.calls == map[] && s.drafts == map[] && s.newAssets == map[]
            && s.uploads == map[7 := CompletedUpload(NewUpload(5, "a", None, 0), hash(content), |content|, 1, 0)]
            && s.assets == map[1 := Asset(5, hash(content), |content|, "a")]
            && s.objects == map["a" := content, "b" := content] && s.orphans == {"b"}
            && LeftAnOrphan(s, 2, 8, "b")
  {
    var s := CreatedAndMissed(hash, BothStored(content), 1, 2, 1);
    assert s.calls[1] == Linked(7, content, 1) && s.calls[2] == Missed(8, content);
    trace, steps := CreatorPublishes(hash, s, 1, 0);
    var t := trace[2];
    assert t.assets[1].sha256 == hash(content) && t.newAssets == map[];
    var trace', steps' := RejectedCallRollsBack(hash, t, 2, 2);
    NoFaultsJoin(hash, trace, steps, trace', steps');
    trace, steps := trace + trace'[1..], steps + steps';
  }

  /**
   * Two users upload the same new content at once, and nothing fails: whether the second looks before the first
   * has created the asset or before it has committed it, the run ends with no session open, the first upload
   * alone, one asset, and two objects with the same bytes of which the second is an orphan.
   */
  lemma RacingUploadsLeaveAnOrphan(hash: Bytes -> string, content: Bytes, early: bool)
    returns (trace: seq<State>, steps: seq<Step>)
    ensures Run(hash, trace, steps) && NoFaults(hash, trace, steps) && trace[0] == Empty && |steps| == 15
    ensures Overlaps(hash, trace[if early then 9 else 10], steps[if early then 9 else 10], 1)
    ensures var s := trace[15];
            && s.calls == map[] && s.drafts == map[] && s.newAssets == map[]
            && s.uploads == map[7 := CompletedUpload(NewUpload(5, "a", None, 0), hash(content), |content|, 1, 0)]
            && s.assets == map[1 := Asset(5, hash(content), |content|, "a")]
            && s.objects == map["a" := content, "b" := content] && s.orphans == {"b"}
            && LeftAnOrphan(s, 2, 8, "b")
  {
    trace, steps := BothStoredIsReachable(hash, content);
    var s := trace[8];
    assert s.calls[1] == Stored(7, content) && s.calls[2] == Stored(8, content);
    var trace2, steps2;
    if early {
      trace2, steps2 := EarlyFindMisses(hash, s, 1, 2, 1);
    } else {
      trace2, steps2 := LateFindMisses(hash, s, 1, 2, 1);
    }
    var trace3, steps3 := TheFirstWins(hash, content);
    NoFaultsJoin(hash, trace, steps, trace2, steps2);
    trace, steps := trace + trace2[1..], steps + steps2;
    NoFaultsJoin(hash, trace, steps, trace3, steps3);
    trace, steps := trace + trace3[1..], steps + steps3;
  }

  // ----- Idempotent replay

  lemma KnownKeyIsFound(hash: Bytes -> string, s: State, step: Step, u: Id)
    requires RequestsDistinct(s.uploads) && u in s.uploads && s.uploads[u].idempotencyKey.Some?
    requires step.LookupStep? && Enabled(hash, s, step)
    requires step.user == s.uploads[u].user && step.key == s.uploads[u].idempotencyKey
    ensures step.found == Some(u) && Apply(hash, s, step) == s
  {
    assert HasKey(s.uploads[u], step.user, step.key);
    assert KeyTaken(s.uploads, step.user, step.key);
    var v := step.found.value;
    assert HasKey(s.uploads[v], s.uploads[u].user, s.uploads[u].idempotencyKey);
  }

  /**
   * Once a user's key has a visible upload, every later call with that user and key finds that same upload, in
   * whatever status it is, and changes nothing; no other upload ever has the key, visible or in a session.
   */
  lemma KnownKeysReplay(
    hash: Bytes -> string, trace: seq<State>, steps: seq<Step>, i: nat, j: nat, u: Id, key: string)
    requires Run(hash, trace, steps) && i <= j < |trace|
    requires u in trace[i].uploads && trace[i].uploads[u].idempotencyKey == Some(key)
    ensures forall v | v in trace[j].uploads && HasKey(trace[j].uploads[v], trace[i].uploads[u].user, Some(key)) ::
              v == u
    ensures !KeyTaken(trace[j].drafts, trace[i].uploads[u].user, Some(key))
    ensures j < |steps| && steps[j].LookupStep?
            && steps[j].user == trace[i].uploads[u].user && steps[j].key == Some(key) ==>
              steps[j].found == Some(u) && trace[j + 1] == trace[j]
  {
    RowsAreKept(hash, trace, steps, i, j, u);
    RunsKeepInv(hash, trace, steps, j);
    var s, user := trace[j], trace[i].uploads[u].user;
    forall v | v in s.uploads && HasKey(s.uploads[v], user, Some(key)) ensures v == u {
      assert HasKey(s.uploads[v], s.uploads[u].user, s.uploads[u].idempotencyKey);
    }
    forall v | v in s.drafts ensures !HasKey(s.drafts[v], user, Some(key)) {
      assert !HasKey(s.uploads[u], s.drafts[v].user, s.drafts[v].idempotencyKey);
    }
    if j < |steps| && steps[j].LookupStep? && steps[j].user == user && steps[j].key == Some(key) {
      KnownKeyIsFound(hash, s, steps[j], u);
    }
  }
}
