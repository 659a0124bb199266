/**
 * The tag API controller over a revisioned store: `create` makes a tag model
 * and its first revision, `update` gives an existing tag a fresh revision;
 * both save the revision before pointing the model at it, and both turn any
 * failure into an error response.
 */
module TagApi {
  import opened Common

  const StatusOk: int := 200
  const StatusCreated: int := 201

  /** A tag model: its identity and its current-revision reference (none until
      `setRevision` is first called). */
  datatype TagModel = TagModel(uuid: Uuid, revision: Option<Uuid>)

  datatype TagRevision = TagRevision(
    uuid: Uuid, model: Uuid, labelText: string, color: string, cseType: string, sseType: string,
    hidden: bool, trashed: bool, deleted: bool, favourite: bool)

  /** The request parameters shared by `create` and `update`. */
  datatype TagInput = TagInput(labelText: string, color: string, cseType: string, sseType: string,
                               hidden: bool, favourite: bool)

  /** The writes the store performs, in order. */
  datatype StoreCall = SavedRevision(revision: Uuid) | SavedModel(model: Uuid, revision: Uuid)

  /** What a store call can throw. */
  datatype ApiFault = NotFound | IntegrityError | BackendError

  /** Failures the store's back end may raise independently of its state:
      allocating the model, building the revision (for instance rejecting its
      encryption types), writing the revision, and writing the model that
      `setRevision` repoints. */
  datatype Faults = Faults(createFails: bool, revisionFails: bool, saveFails: bool, pointFails: bool)

  /** The JSON reply: the model and revision uuids with a status, or the
      response `createErrorResponse` builds for the exception. */
  datatype Response = Json(id: Uuid, revision: Uuid, status: int) | ErrorResponse(fault: ApiFault)

  /** The store's persistent state; every identifier handed out is below
      `nextId`. */
  datatype StoreState = StoreState(
    models: map<Uuid, TagModel>, revisions: map<Uuid, TagRevision>, nextId: nat, calls: seq<StoreCall>)

  /** The outcome of one store call: the new state and a value, or the state
      at the throw and the fault. */
  datatype Outcome<T> = Done(st: StoreState, value: T) | Threw(st: StoreState, fault: ApiFault)

  /** The revision both actions build from the request: the given `hidden`
      and `favourite`, neither trashed nor deleted. */
  function RequestedRevision(uuid: Uuid, model: Uuid, input: TagInput): TagRevision {
    TagRevision(uuid, model, input.labelText, input.color, input.cseType, input.sseType,
                input.hidden, false, false, input.favourite)
  }

  /** Every model points, if at all, at a saved revision bound to it, and all
      identifiers are below the allocator. */
  predicate Consistent(st: StoreState) {
    && (forall u :: u in st.models ==> st.models[u].uuid == u && u < st.nextId)
    && (forall u :: u in st.revisions ==> st.revisions[u].uuid == u && u < st.nextId)
    && (forall u :: u in st.models && st.models[u].revision.Some? ==>
          && st.models[u].revision.value in st.revisions
          && st.revisions[st.models[u].revision.value].model == u)
  }

  // ---------------------------------------------------------------------------
  // Store calls
  // ---------------------------------------------------------------------------

  /** `modelService->create()`: a fresh model without a revision, not yet saved. */
  function CreateModel(st: StoreState, f: Faults): (o: Outcome<TagModel>)
    ensures o.Done? <==> !f.createFails
    ensures o.Done? ==> o.value == TagModel(st.nextId, None) && o.st.nextId == st.nextId + 1
  {
    if f.createFails then Threw(st, BackendError)
    else Done(st.(nextId := st.nextId + 1), TagModel(st.nextId, None))
  }

  /** `revisionService->create(...)`: a fresh revision bound to `model`, not
      yet saved. */
  function CreateRevision(st: StoreState, model: Uuid, input: TagInput, trashed: bool, deleted: bool, f: Faults)
    : (o: Outcome<TagRevision>)
    ensures o.Done? <==> !f.revisionFails
    ensures o.Done? ==> o.value.uuid == st.nextId && o.value.model == model && o.st.nextId == st.nextId + 1
  {
    if f.revisionFails then Threw(st, BackendError)
    else
      var r := TagRevision(st.nextId, model, input.labelText, input.color, input.cseType, input.sseType,
                           input.hidden, trashed, deleted, input.favourite);
      Done(st.(nextId := st.nextId + 1), r)
  }

  /** `revisionService->save($revision)`. */
  function Save(st: StoreState, r: TagRevision, f: Faults): (o: Outcome<()>)
    ensures o.Done? <==> !f.saveFails
    ensures o.Done? ==> o.st.revisions == st.revisions[r.uuid := r] && o.st.models == st.models
  {
    if f.saveFails then Threw(st, BackendError)
    else Done(st.(revisions := st.revisions[r.uuid := r], calls := st.calls + [SavedRevision(r.uuid)]), ())
  }

  /** `modelService->setRevision($model, $revision)`: checks that the revision
      is saved and bound to the model, then saves the model pointing at it;
      that write may fail like any other. */
  function SetRevision(st: StoreState, m: TagModel, r: TagRevision, f: Faults): (o: Outcome<()>)
    ensures o.Done? <==> r.model == m.uuid && r.uuid in st.revisions && !f.pointFails
    ensures o.Done? ==> o.st.models == st.models[m.uuid := m.(revision := Some(r.uuid))]
                        && o.st.revisions == st.revisions
    ensures o.Threw? ==> o.st == st
  {
    if r.model != m.uuid || r.uuid !in st.revisions then Threw(st, IntegrityError)
    else if f.pointFails then Threw(st, BackendError)
    else Done(st.(models := st.models[m.uuid := m.(revision := Some(r.uuid))],
                  calls := st.calls + [SavedModel(m.uuid, r.uuid)]), ())
  }

  /** `modelService->findByUuid($id)`. */
  function FindByUuid(st: StoreState, id: Uuid): (o: Outcome<TagModel>)
    ensures o.st == st
    ensures o.Done? <==> id in st.models
  {
    if id in st.models then Done(st, st.models[id]) else Threw(st, NotFound)
  }

  // ---------------------------------------------------------------------------
  // Controller actions
  // ---------------------------------------------------------------------------

  /** Save `r`, then point `m` at it; answer with both uuids and `status`. */
  function Commit(st: StoreState, m: TagModel, r: TagRevision, status: int, f: Faults): (StoreState, Response) {
    match Save(st, r, f)
    case Threw(s, e) => (s, ErrorResponse(e))
    case Done(s, _) =>
      match SetRevision(s, m, r, f)
      case Threw(s', e) => (s', ErrorResponse(e))
      case Done(s', _) => (s', Json(m.uuid, r.uuid, status))
  }

  /** `create`: a new model, a revision bound to it with the given `hidden`
      and `favourite` and the other two flags false, saved, then pointed at. */
  function CreateTag(st: StoreState, input: TagInput, f: Faults): (res: (StoreState, Response))
    requires Consistent(st)
    ensures Consistent(res.0)
    ensures res.1.Json? <==> !f.createFails && !f.revisionFails && !f.saveFails && !f.pointFails
    ensures res.1.Json? ==>
              var (id, rev) := (res.1.id, res.1.revision);
              && res.1.status == StatusCreated
              && id !in st.models && rev !in st.revisions && id != rev
              && res.0.revisions == st.revisions[rev := RequestedRevision(rev, id, input)]
              && res.0.models == st.models[id := TagModel(id, Some(rev))]
              && res.0.calls == st.calls + [SavedRevision(rev), SavedModel(id, rev)]
    // Every failure leaves the models as they were.
    ensures res.1.ErrorResponse? ==> res.0.models == st.models
    // A failure before the save leaves no trace at all.
    ensures res.1.ErrorResponse? && (f.createFails || f.revisionFails || f.saveFails) ==>
              res.0.revisions == st.revisions && res.0.calls == st.calls
    // A failing `setRevision` after the save leaves the saved revision behind,
    // bound to a model that was never stored and referenced by no model.
    ensures res.1.ErrorResponse? && !f.createFails && !f.revisionFails && !f.saveFails ==>
              var (id, rev) := (st.nextId, st.nextId + 1);
              && id !in st.models && rev !in st.revisions
              && res.0.revisions == st.revisions[rev := RequestedRevision(rev, id, input)]
              && res.0.calls == st.calls + [SavedRevision(rev)]
              && (forall u :: u in res.0.models ==> res.0.models[u].revision != Some(rev))
  {
    match CreateModel(st, f)
    case Threw(s, e) => (s, ErrorResponse(e))
    case Done(s1, model) =>
      match CreateRevision(s1, model.uuid, input, false, false, f)
      case Threw(s, e) => (s, ErrorResponse(e))
      case Done(s2, revision) => Commit(s2, model, revision, StatusCreated, f)
  }

  /** `update`: look the model up, then give it a fresh revision exactly as
      `create` does; a missing model changes nothing. */
  function UpdateTag(st: StoreState, id: Uuid, input: TagInput, f: Faults): (res: (StoreState, Response))
    requires Consistent(st)
    ensures Consistent(res.0)
    ensures id !in st.models ==> res == (st, ErrorResponse(NotFound))
    ensures res.1.Json? <==> id in st.models && !f.revisionFails && !f.saveFails && !f.pointFails
    ensures res.1.Json? ==>
              var rev := res.1.revision;
              && res.1.id == id && res.1.status == StatusOk
              && rev !in st.revisions
              && res.0.revisions == st.revisions[rev := RequestedRevision(rev, id, input)]
              && res.0.models == st.models[id := st.models[id].(revision := Some(rev))]
              && res.0.calls == st.calls + [SavedRevision(rev), SavedModel(id, rev)]
    // Every failure leaves the models, the tag's current revision included, as they were.
    ensures res.1.ErrorResponse? ==> res.0.models == st.models
    // A failure before the save leaves no trace at all.
    ensures res.1.ErrorResponse? && (f.revisionFails || f.saveFails) ==>
              res.0.revisions == st.revisions && res.0.calls == st.calls
    // A failing `setRevision` after the save leaves the saved revision behind,
    // bound to the tag but referenced by no model.
    ensures res.1.ErrorResponse? && id in st.models && !f.revisionFails && !f.saveFails ==>
              var rev := st.nextId;
              && rev !in st.revisions
              && res.0.revisions == st.revisions[rev := RequestedRevision(rev, id, input)]
              && res.0.calls == st.calls + [SavedRevision(rev)]
              && (forall u :: u in res.0.models ==> res.0.models[u].revision != Some(rev))
  {
    match FindByUuid(st, id)
    case Threw(s, e) => (s, ErrorResponse(e))
    case Done(s0, model) =>
      match CreateRevision(s0, model.uuid, input, false, false, f)
      case Threw(s, e) => (s, ErrorResponse(e))
      case Done(s2, revision) => Commit(s2, model, revision, StatusOk, f)
  }

  // ---------------------------------------------------------------------------
  // The store and the controller as objects
  // ---------------------------------------------------------------------------

  /** The model and revision services over one store. Each call returns
      the outcome its function above describes, and leaves the store in
      that outcome's state. */
  class TagStore {
    var models: map<Uuid, TagModel>
    var revisions: map<Uuid, TagRevision>
    var nextId: nat
    var calls: seq<StoreCall>

    function State(): StoreState
      reads this
    {
      StoreState(models, revisions, nextId, calls)
    }

    constructor()
      ensures State() == StoreState(map[], map[], 0, []) && Consistent(State())
    {
      models, revisions, nextId, calls := map[], map[], 0, [];
    }

    method NewModel(f: Faults) returns (o: Outcome<TagModel>)
      modifies this
      ensures o == CreateModel(old(State()), f) && State() == o.st
    {
      if f.createFails {
        return Threw(State(), BackendError);
      }
      var model := TagModel(nextId, None);
      nextId := nextId + 1;
      o := Done(State(), model);
    }

    method NewRevision(model: Uuid, input: TagInput, trashed: bool, deleted: bool, f: Faults)
      returns (o: Outcome<TagRevision>)
      modifies this
      ensures o == CreateRevision(old(State()), model, input, trashed, deleted, f) && State() == o.st
    {
      if f.revisionFails {
        return Threw(State(), BackendError);
      }
      var revision := TagRevision(nextId, model, input.labelText, input.color, input.cseType, input.sseType,
                                  input.hidden, trashed, deleted, input.favourite);
      nextId := nextId + 1;
      o := Done(State(), revision);
    }

    method SaveRevision(revision: TagRevision, f: Faults) returns (o: Outcome<()>)
      modifies this
      ensures o == Save(old(State()), revision, f) && State() == o.st
    {
      if f.saveFails {
        return Threw(State(), BackendError);
      }
      revisions := revisions[revision.uuid := revision];
      calls := calls + [SavedRevision(revision.uuid)];
      o := Done(State(), ());
    }

    method PointAt(model: TagModel, revision: TagRevision, f: Faults) returns (o: Outcome<()>)
      modifies this
      ensures o == SetRevision(old(State()), model, revision, f) && State() == o.st
    {
      if revision.model != model.uuid || revision.uuid !in revisions {
        return Threw(State(), IntegrityError);
      }
      if f.pointFails {
        return Threw(State(), BackendError);
      }
      models := models[model.uuid := model.(revision := Some(revision.uuid))];
      calls := calls + [SavedModel(model.uuid, revision.uuid)];
      o := Done(State(), ());
    }

    method Find(id: Uuid) returns (o: Outcome<TagModel>)
      ensures o == FindByUuid(State(), id)
    {
      if id in models {
        return Done(State(), models[id]);
      }
      o := Threw(State(), NotFound);
    }
  }

  class TagApiController {
    const store: TagStore

    constructor(store: TagStore)
      ensures this.store == store
    {
      this.store := store;
    }

    /** The controller's `create` action. */
    method Create(input: TagInput, f: Faults) returns (response: Response)
      requires Consistent(store.State())
      modifies store
      ensures (store.State(), response) == CreateTag(old(store.State()), input, f)
    {
      var model := store.NewModel(f);
      if model.Threw? {
        return ErrorResponse(model.fault);
      }
      var revision := store.NewRevision(model.value.uuid, input, false, false, f);
      if revision.Threw? {
        return ErrorResponse(revision.fault);
      }
      response := Persist(model.value, revision.value, StatusCreated, f);
    }

    /** The controller's `update` action. */
    method Update(id: Uuid, input: TagInput, f: Faults) returns (response: Response)
      requires Consistent(store.State())
      modifies store
      ensures (store.State(), response) == UpdateTag(old(store.State()), id, input, f)
    {
      var found := store.Find(id);
      if found.Threw? {
        return ErrorResponse(found.fault);
      }
      var revision := store.NewRevision(found.value.uuid, input, false, false, f);
      if revision.Threw? {
        return ErrorResponse(revision.fault);
      }
      response := Persist(found.value, revision.value, StatusOk, f);
    }

    /** `save`, then `setRevision`, then the JSON reply. */
    method Persist(model: TagModel, revision: TagRevision, status: int, f: Faults) returns (response: Response)
      modifies store
      ensures (store.State(), response) == Commit(old(store.State()), model, revision, status, f)
    {
      var saved := store.SaveRevision(revision, f);
      if saved.Threw? {
        return ErrorResponse(saved.fault);
      }
      var pointed := store.PointAt(model, revision, f);
      if pointed.Threw? {
        return ErrorResponse(pointed.fault);
      }
      response := Json(model.uuid, revision.uuid, status);
    }
  }

  // ---------------------------------------------------------------------------
  // Properties
  // ---------------------------------------------------------------------------

  /** Every revision saved before is still saved, unchanged, after. */
  predicate KeepsRevisions(before: map<Uuid, TagRevision>, after: map<Uuid, TagRevision>) {
    forall u :: u in before ==> u in after && after[u] == before[u]
  }

  /** Adding a revision under a fresh uuid keeps every saved one. */
  lemma FreshSaveKeeps(before: map<Uuid, TagRevision>, u: Uuid, r: TagRevision)
    requires u !in before
    ensures KeepsRevisions(before, before[u := r])
  {
  }

  /** Neither action ever changes a revision that was already saved, whether
      it succeeds or fails. */
  lemma SavedRevisionsAreImmutable(st: StoreState, id: Uuid, input: TagInput, f: Faults)
    requires Consistent(st)
    ensures KeepsRevisions(st.revisions, CreateTag(st, input, f).0.revisions)
    ensures KeepsRevisions(st.revisions, UpdateTag(st, id, input, f).0.revisions)
  {
    var c := CreateTag(st, input, f);
    if c.0.revisions != st.revisions {
      var rev := if c.1.Json? then c.1.revision else st.nextId + 1;
      FreshSaveKeeps(st.revisions, rev, c.0.revisions[rev]);
    }
    var u := UpdateTag(st, id, input, f);
    if u.0.revisions != st.revisions {
      var rev := if u.1.Json? then u.1.revision else st.nextId;
      FreshSaveKeeps(st.revisions, rev, u.0.revisions[rev]);
    }
  }

  /** Every model write in `calls` is preceded by the save of the revision it
      points at. */
  predicate SavedBeforeRepointed(calls: seq<StoreCall>) {
    forall i :: 0 <= i < |calls| && calls[i].SavedModel? ==>
      exists j :: 0 <= j < i && calls[j] == SavedRevision(calls[i].revision)
  }

  /** The writes one action can make: none, the save alone, or the save and
      then the model write. */
  lemma ActionWritesInOrder(calls: seq<StoreCall>, m: Uuid, r: Uuid)
    requires calls == [] || calls == [SavedRevision(r)] || calls == [SavedRevision(r), SavedModel(m, r)]
    ensures SavedBeforeRepointed(calls)
  {
    if |calls| == 2 {
      assert calls[0] == SavedRevision(calls[1].revision);
    }
  }

  /** The revision is always written before the model is pointed at it. */
  lemma SaveBeforeRepoint(st: StoreState, id: Uuid, input: TagInput, f: Faults)
    requires Consistent(st)
    ensures SavedBeforeRepointed(CreateTag(st, input, f).0.calls[|st.calls|..])
    ensures SavedBeforeRepointed(UpdateTag(st, id, input, f).0.calls[|st.calls|..])
  {
    var c := CreateTag(st, input, f);
    var (cm, cr) := if c.1.Json? then (c.1.id, c.1.revision) else (st.nextId, st.nextId + 1);
    ActionWritesInOrder(c.0.calls[|st.calls|..], cm, cr);
    var u := UpdateTag(st, id, input, f);
    var ur := if u.1.Json? then u.1.revision else st.nextId;
    ActionWritesInOrder(u.0.calls[|st.calls|..], id, ur);
  }

  /** Two updates of the same tag leave it pointing at the second revision,
      with the first still saved and bound to it. */
  lemma UpdateTwice(st: StoreState, id: Uuid, a: TagInput, b: TagInput, f: Faults)
    requires Consistent(st) && id in st.models && !f.revisionFails && !f.saveFails && !f.pointFails
    ensures var (s1, r1) := UpdateTag(st, id, a, f);
            var (s2, r2) := UpdateTag(s1, id, b, f);
            && r1.Json? && r2.Json? && r1.revision != r2.revision
            && s2.models[id].revision == Some(r2.revision)
            && r1.revision in s2.revisions && s2.revisions[r1.revision].model == id
  {
    var (s1, r1) := UpdateTag(st, id, a, f);
    assert r1.revision in s1.revisions;
  }
}
