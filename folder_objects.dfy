/**
 * The folder API-object helper: the PHP array returned for a folder at a
 * requested '+'-separated detail level, with its parent, its sub-folders and
 * its passwords projected at MODEL level under visibility flags inverted from
 * the folder's own.
 */
module FolderObjects {
  import opened Common

  const LevelModel: string := "model"
  const LevelRevisions: string := "revisions"
  const LevelParent: string := "parent"
  const LevelFolders: string := "folders"
  const LevelPasswords: string := "passwords"

  datatype Folder = Folder(uuid: Uuid, userId: string, created: int, updated: int, revision: Uuid)

  datatype FolderRevision = FolderRevision(
    uuid: Uuid, model: Uuid, userId: string, created: int, updated: int,
    labelText: string, parent: Uuid, cseType: string, sseType: string,
    hidden: bool, trashed: bool, favourite: bool)

  /** The services the helper reads: the two `findByUuid` lookups (a missing key
      throws `DoesNotExistException`), the base folder, the three list queries,
      and the password helper's MODEL-level projection (null or an array). */
  datatype Services = Services(
    folders: map<Uuid, Folder>,
    revisions: map<Uuid, FolderRevision>,
    baseFolder: Folder,
    byParent: Uuid -> seq<Folder>,
    byModel: Uuid -> seq<FolderRevision>,
    byFolder: Uuid -> seq<Password>,
    passwordObject: PasswordProjection)

  const ModelKeys: set<Key> :=
    {IdKey, OwnerKey, CreatedKey, UpdatedKey, RevisionKey, LabelKey, ParentKey, CseTypeKey, SseTypeKey,
     HiddenKey, TrashedKey, FavouriteKey}

  /** One entry of `getModel`: identity and timestamps from the folder, the
      rest from its current revision. */
  function ModelEntry(f: Folder, r: FolderRevision, k: Key): Value {
    match k
    case IdKey => Id(f.uuid)
    case OwnerKey => Str(f.userId)
    case CreatedKey => Int(f.created)
    case UpdatedKey => Int(f.updated)
    case RevisionKey => Id(r.uuid)
    case _ => RevisionEntry(r, k)
  }

  /** One entry of a revision in `getRevisions`: everything from the revision. */
  function RevisionEntry(r: FolderRevision, k: Key): Value {
    match k
    case IdKey => Id(r.uuid)
    case OwnerKey => Str(r.userId)
    case CreatedKey => Int(r.created)
    case UpdatedKey => Int(r.updated)
    case LabelKey => Str(r.labelText)
    case ParentKey => Id(r.parent)
    case CseTypeKey => Str(r.cseType)
    case SseTypeKey => Str(r.sseType)
    case HiddenKey => Bool(r.hidden)
    case TrashedKey => Bool(r.trashed)
    case FavouriteKey => Bool(r.favourite)
    case _ => Null
  }

  /** `getModel`: the folder and its current revision, flattened. */
  function ModelFields(f: Folder, r: FolderRevision): Fields {
    map k | k in ModelKeys :: ModelEntry(f, r, k)
  }

  /** One entry of `getRevisions`: the model keys except the revision reference. */
  function RevisionFields(r: FolderRevision): Fields {
    map k | k in ModelKeys - {RevisionKey} :: RevisionEntry(r, k)
  }

  /** Which facets a detail level asks for: the `in_array` tests on its
      '+'-separated parts. */
  datatype Detail = Detail(model: bool, revisions: bool, parent: bool, folders: bool, passwords: bool)

  function Requested(level: string): Detail {
    var parts := Split(level);
    Detail(LevelModel in parts, LevelRevisions in parts, LevelParent in parts, LevelFolders in parts,
           LevelPasswords in parts)
  }

  /** `getApiObject`: null when the current revision is excluded, otherwise the
      facets requested. A failed lookup anywhere propagates. */
  function GetApiObject(s: Services, folder: Folder, level: string, excludeHidden: bool, excludeTrash: bool)
    : (r: Result<Option<Fields>>)
    ensures folder.revision !in s.revisions ==> r == Failure(DoesNotExist)
    ensures folder.revision in s.revisions ==>
              var rev := s.revisions[folder.revision];
              (r == Success(None) <==> Excluded(rev.hidden, rev.trashed, excludeHidden, excludeTrash))
    ensures folder.revision in s.revisions ==>
              var rev := s.revisions[folder.revision];
              var o := Facets(s, folder, rev, Requested(level));
              !Excluded(rev.hidden, rev.trashed, excludeHidden, excludeTrash) ==>
                r == (if o.Success? then Success(Some(o.value)) else Failure(o.error))
  {
    if folder.revision !in s.revisions then Failure(DoesNotExist)
    else
      var rev := s.revisions[folder.revision];
      if excludeTrash && rev.trashed then Success(None)
      else if excludeHidden && rev.hidden then Success(None)
      else
        var o :- Facets(s, folder, rev, Requested(level));
        Success(Some(o))
  }

  /** `getApiObject` at MODEL level, the call the parent and folder facets
      make: the flat projection of `getModel`, or null. */
  function ModelObject(s: Services, f: Folder, excludeHidden: bool, excludeTrash: bool): Result<Option<Fields>> {
    if f.revision !in s.revisions then Failure(DoesNotExist)
    else
      var rev := s.revisions[f.revision];
      if Excluded(rev.hidden, rev.trashed, excludeHidden, excludeTrash) then Success(None)
      else Success(Some(ModelFields(f, rev)))
  }

  /** The MODEL facet, or the empty array when MODEL is not requested. */
  function Initial(folder: Folder, rev: FolderRevision, d: Detail): Fields {
    if d.model then ModelFields(folder, rev) else map[]
  }

  /** The array of a visible folder: the facets requested, applied in the
      order MODEL, REVISIONS, PARENT, FOLDERS, PASSWORDS, each setting its
      own key. */
  function Facets(s: Services, folder: Folder, rev: FolderRevision, d: Detail): Result<Fields> {
    Assemble(Initial(folder, rev, d), d, GetRevisions(s, folder), GetParent(s, rev), GetFolders(s, rev),
             GetPasswords(s, rev))
  }

  /** Sets each requested facet's key on top of the MODEL array; a failing
      PARENT or FOLDERS facet fails the whole object only when requested. */
  function Assemble(o1: Fields, d: Detail, revisions: Value, parent: Result<Value>, folders: Result<Value>,
                    passwords: Value): Result<Fields>
  {
    var o2 := if d.revisions then o1[RevisionsKey := revisions] else o1;
    var o3 :- if !d.parent then Success(o2) else var p :- parent; Success(o2[ParentKey := p]);
    var o4 :- if !d.folders then Success(o3) else var f :- folders; Success(o3[FoldersKey := f]);
    var o5 := if d.passwords then o4[PasswordsKey := passwords] else o4;
    Success(o5)
  }

  /** `getRevisions`: the entry for RevisionsKey, the flattened history. */
  function GetRevisions(s: Services, folder: Folder): Value {
    List(EntryList(s.byModel(folder.uuid), RevisionFields))
  }

  /** `getParent`: the entry for ParentKey, the parent at MODEL level with
      inverted flags, or else the base folder at MODEL level with the default
      flags (which may be null). */
  function GetParent(s: Services, rev: FolderRevision): Result<Value> {
    if rev.parent !in s.folders then Failure(DoesNotExist)
    else
      var obj :- ModelObject(s, s.folders[rev.parent], !rev.hidden, !rev.trashed);
      if obj.Some? then Success(Obj(obj.value))
      else
        var base :- ModelObject(s, s.baseFolder, true, false);
        Success(if base.Some? then Obj(base.value) else Null)
  }

  /** `getFolders`: the entry for FoldersKey, present even when no child
      survives. */
  function GetFolders(s: Services, rev: FolderRevision): Result<Value> {
    var items :- CollectFolders(s, s.byParent(rev.model), !rev.hidden, !rev.trashed);
    Success(List(items))
  }

  /** The loop of `getFolders`: the non-null MODEL projections, in order. */
  function CollectFolders(s: Services, children: seq<Folder>, excludeHidden: bool, excludeTrash: bool)
    : (r: Result<seq<Value>>)
    ensures r.Success? ==> |r.value| <= |children|
    decreases |children|
  {
    if children == [] then Success([])
    else
      var init :- CollectFolders(s, children[..|children| - 1], excludeHidden, excludeTrash);
      var obj :- ModelObject(s, children[|children| - 1], excludeHidden, excludeTrash);
      Success(if obj.Some? then init + [Obj(obj.value)] else init)
  }

  /** `getPasswords`: the entry for PasswordsKey, present even when no
      password survives. */
  function GetPasswords(s: Services, rev: FolderRevision): Value {
    List(CollectPasswords(s.passwordObject, s.byFolder(rev.model), !rev.hidden, !rev.trashed))
  }

  // ---------------------------------------------------------------------------
  // Reference definitions
  // ---------------------------------------------------------------------------

  /** Whether every folder of the list has its current revision in the store. */
  predicate AllResolvable(s: Services, fs: seq<Folder>) {
    forall i :: 0 <= i < |fs| ==> fs[i].revision in s.revisions
  }

  /** The MODEL projections of the folders that the flags do not exclude, in order. */
  function VisibleModels(s: Services, fs: seq<Folder>, excludeHidden: bool, excludeTrash: bool): seq<Value>
    requires AllResolvable(s, fs)
  {
    if fs == [] then []
    else
      var f := fs[|fs| - 1];
      var rev := s.revisions[f.revision];
      VisibleModels(s, fs[..|fs| - 1], excludeHidden, excludeTrash)
      + (if Excluded(rev.hidden, rev.trashed, excludeHidden, excludeTrash) then [] else [Obj(ModelFields(f, rev))])
  }

  // ---------------------------------------------------------------------------
  // Properties
  // ---------------------------------------------------------------------------

  lemma SplitModel()
    ensures Split(LevelModel) == [LevelModel]
    ensures Requested(LevelModel) == Detail(true, false, false, false, false)
  {
  }

  /** `getModel` holds exactly the model keys, each with a scalar value:
      identity from the folder, the revision reference and the content from its
      current revision. */
  lemma ModelFieldsShape(f: Folder, r: FolderRevision)
    ensures var m := ModelFields(f, r);
            && m.Keys == ModelKeys
            && FlatFields(m)
            && m[IdKey] == Id(f.uuid) && m[RevisionKey] == Id(r.uuid)
            && m[LabelKey] == Str(r.labelText) && m[ParentKey] == Id(r.parent)
            && m[HiddenKey] == Bool(r.hidden) && m[TrashedKey] == Bool(r.trashed)
            && m[FavouriteKey] == Bool(r.favourite)
  {
    var m := ModelFields(f, r);
    ModelFieldsValues(f, r);
    forall k | k in m ensures Flat(m[k]) {
      assert m[k] == ModelEntry(f, r, k);
    }
  }

  /** The entries of `getModel` that the facet lemmas talk about. */
  lemma ModelFieldsValues(f: Folder, r: FolderRevision)
    ensures var m := ModelFields(f, r);
            && m.Keys == ModelKeys
            && m[IdKey] == Id(f.uuid) && m[RevisionKey] == Id(r.uuid)
            && m[LabelKey] == Str(r.labelText) && m[ParentKey] == Id(r.parent)
            && m[HiddenKey] == Bool(r.hidden) && m[TrashedKey] == Bool(r.trashed)
            && m[FavouriteKey] == Bool(r.favourite)
  {
  }

  /** A history entry holds scalar values only and no revision reference. */
  lemma RevisionFieldsShape(r: FolderRevision)
    ensures FlatFields(RevisionFields(r)) && RevisionKey !in RevisionFields(r)
  {
    var m := RevisionFields(r);
    forall k | k in m ensures Flat(m[k]) {
      assert m[k] == RevisionEntry(r, k);
    }
  }

  /** A nested call asks for MODEL only: it yields exactly the flat projection
      of `getModel` (or null), never parent, folders, passwords or revisions. */
  lemma ModelLevelIsProjection(s: Services, f: Folder, excludeHidden: bool, excludeTrash: bool)
    ensures GetApiObject(s, f, LevelModel, excludeHidden, excludeTrash) == ModelObject(s, f, excludeHidden, excludeTrash)
    ensures f.revision in s.revisions ==>
              var rev := s.revisions[f.revision];
              ModelObject(s, f, excludeHidden, excludeTrash)
              == if Excluded(rev.hidden, rev.trashed, excludeHidden, excludeTrash) then Success(None)
                 else Success(Some(ModelFields(f, rev)))
  {
    SplitModel();
    if f.revision in s.revisions {
      var rev := s.revisions[f.revision];
      assert Facets(s, f, rev, Requested(LevelModel)) == Success(ModelFields(f, rev));
    }
  }

  /** The folders loop computes exactly the reference filter, or fails on the
      first child whose revision is missing. */
  lemma {:induction false} CollectFoldersIsVisibleModels(s: Services, fs: seq<Folder>, excludeHidden: bool, excludeTrash: bool)
    ensures AllResolvable(s, fs) ==>
              CollectFolders(s, fs, excludeHidden, excludeTrash) == Success(VisibleModels(s, fs, excludeHidden, excludeTrash))
    ensures !AllResolvable(s, fs) ==> CollectFolders(s, fs, excludeHidden, excludeTrash) == Failure(DoesNotExist)
  {
    if fs != [] {
      var init := fs[..|fs| - 1];
      var f := fs[|fs| - 1];
      CollectFoldersIsVisibleModels(s, init, excludeHidden, excludeTrash);
      ResolvableSnoc(s, fs);
      if AllResolvable(s, fs) {
        var rev := s.revisions[f.revision];
        var v := VisibleModels(s, init, excludeHidden, excludeTrash);
        assert CollectFolders(s, init, excludeHidden, excludeTrash) == Success(v);
        if Excluded(rev.hidden, rev.trashed, excludeHidden, excludeTrash) {
          assert ModelObject(s, f, excludeHidden, excludeTrash) == Success(None);
          assert VisibleModels(s, fs, excludeHidden, excludeTrash) == v + [];
          assert v + [] == v;
        } else {
          var item := Obj(ModelFields(f, rev));
          assert ModelObject(s, f, excludeHidden, excludeTrash) == Success(Some(ModelFields(f, rev)));
          assert VisibleModels(s, fs, excludeHidden, excludeTrash) == v + [item];
          assert CollectFolders(s, fs, excludeHidden, excludeTrash) == Success(v + [item]);
        }
      } else if AllResolvable(s, init) {
        assert ModelObject(s, f, excludeHidden, excludeTrash) == Failure(DoesNotExist);
      }
    }
  }

  /** A list is resolvable exactly when its prefix is and its last folder is. */
  lemma ResolvableSnoc(s: Services, fs: seq<Folder>)
    requires fs != []
    ensures AllResolvable(s, fs) <==> AllResolvable(s, fs[..|fs| - 1]) && fs[|fs| - 1].revision in s.revisions
  {
    var init := fs[..|fs| - 1];
    assert forall i :: 0 <= i < |init| ==> init[i] == fs[i];
  }

  /** A folder's projection appears in the reference filter exactly when the
      flags do not exclude its revision; nothing else appears. */
  lemma {:induction false} VisibleModelsMembers(s: Services, fs: seq<Folder>, excludeHidden: bool, excludeTrash: bool)
    requires AllResolvable(s, fs)
    ensures |VisibleModels(s, fs, excludeHidden, excludeTrash)| <= |fs|
    ensures forall i :: 0 <= i < |fs| ==>
              var rev := s.revisions[fs[i].revision];
              !Excluded(rev.hidden, rev.trashed, excludeHidden, excludeTrash) ==>
                Obj(ModelFields(fs[i], rev)) in VisibleModels(s, fs, excludeHidden, excludeTrash)
    ensures forall v :: v in VisibleModels(s, fs, excludeHidden, excludeTrash) ==>
              exists i :: 0 <= i < |fs| &&
                var rev := s.revisions[fs[i].revision];
                !Excluded(rev.hidden, rev.trashed, excludeHidden, excludeTrash) && v == Obj(ModelFields(fs[i], rev))
  {
    if fs != [] {
      var init := fs[..|fs| - 1];
      ResolvableSnoc(s, fs);
      VisibleModelsMembers(s, init, excludeHidden, excludeTrash);
      forall i | 0 <= i < |fs| - 1 ensures fs[i] == init[i] { }
    }
  }

  /** A hidden and trashed container projects its children with both exclude
      flags off, so it lists every child, hidden and trashed ones included. */
  lemma {:induction false} HiddenTrashedContainerListsAll(s: Services, fs: seq<Folder>)
    requires AllResolvable(s, fs)
    ensures |VisibleModels(s, fs, false, false)| == |fs|
  {
    if fs != [] {
      var init := fs[..|fs| - 1];
      ResolvableSnoc(s, fs);
      HiddenTrashedContainerListsAll(s, init);
    }
  }

  /** The null decision and the empty object: an unrecognised level yields an
      empty, non-null array for a visible folder. */
  lemma UnknownLevelGivesEmptyObject(s: Services, folder: Folder, level: string, excludeHidden: bool, excludeTrash: bool)
    requires folder.revision in s.revisions
    requires var rev := s.revisions[folder.revision]; !Excluded(rev.hidden, rev.trashed, excludeHidden, excludeTrash)
    requires forall t :: t in Split(level) ==> t !in {LevelModel, LevelRevisions, LevelParent, LevelFolders, LevelPasswords}
    ensures GetApiObject(s, folder, level, excludeHidden, excludeTrash) == Success(Some(map[]))
  {
    assert LevelModel !in Split(level);
    assert LevelRevisions !in Split(level);
    assert LevelParent !in Split(level);
    assert LevelFolders !in Split(level);
    assert LevelPasswords !in Split(level);
  }

  /** A non-null object is the facets of the folder's current revision. */
  lemma VisibleObjectIsFacets(s: Services, folder: Folder, level: string, excludeHidden: bool, excludeTrash: bool)
    requires GetApiObject(s, folder, level, excludeHidden, excludeTrash).Success?
    requires GetApiObject(s, folder, level, excludeHidden, excludeTrash).value.Some?
    ensures folder.revision in s.revisions
    ensures var rev := s.revisions[folder.revision];
            && !Excluded(rev.hidden, rev.trashed, excludeHidden, excludeTrash)
            && Facets(s, folder, rev, Requested(level))
               == Success(GetApiObject(s, folder, level, excludeHidden, excludeTrash).value.value)
  {
  }

  /** MODEL facet: the current revision's identity and fields; its ParentKey
      entry is the parent uuid unless PARENT is also requested. */
  lemma ModelFacet(s: Services, folder: Folder, level: string, excludeHidden: bool, excludeTrash: bool)
    requires LevelModel in Split(level)
    requires GetApiObject(s, folder, level, excludeHidden, excludeTrash).Success?
    requires GetApiObject(s, folder, level, excludeHidden, excludeTrash).value.Some?
    ensures var o := GetApiObject(s, folder, level, excludeHidden, excludeTrash).value.value;
            var rev := s.revisions[folder.revision];
            && ModelKeys <= o.Keys
            && o[IdKey] == Id(folder.uuid) && o[RevisionKey] == Id(rev.uuid)
            && o[LabelKey] == Str(rev.labelText) && o[HiddenKey] == Bool(rev.hidden)
            && o[TrashedKey] == Bool(rev.trashed) && o[FavouriteKey] == Bool(rev.favourite)
            && (LevelParent !in Split(level) ==> o[ParentKey] == Id(rev.parent))
    ensures var o := GetApiObject(s, folder, level, excludeHidden, excludeTrash).value.value;
            var rev := s.revisions[folder.revision];
            forall k :: k in ModelKeys && (k != ParentKey || LevelParent !in Split(level)) ==>
              o[k] == ModelFields(folder, rev)[k]
  {
    VisibleObjectIsFacets(s, folder, level, excludeHidden, excludeTrash);
    var rev := s.revisions[folder.revision];
    ModelFacetKeeps(s, folder, rev, Requested(level));
  }

  lemma ModelFacetKeeps(s: Services, folder: Folder, rev: FolderRevision, d: Detail)
    requires d.model
    requires Facets(s, folder, rev, d).Success?
    ensures var o := Facets(s, folder, rev, d).value;
            && ModelKeys <= o.Keys
            && o[IdKey] == Id(folder.uuid) && o[RevisionKey] == Id(rev.uuid)
            && o[LabelKey] == Str(rev.labelText) && o[HiddenKey] == Bool(rev.hidden)
            && o[TrashedKey] == Bool(rev.trashed) && o[FavouriteKey] == Bool(rev.favourite)
            && (!d.parent ==> o[ParentKey] == Id(rev.parent))
    ensures var o := Facets(s, folder, rev, d).value;
            forall k :: k in ModelKeys && (k != ParentKey || !d.parent) ==> o[k] == ModelFields(folder, rev)[k]
  {
    ModelFieldsValues(folder, rev);
    AssembleKeepsModel(ModelFields(folder, rev), d, GetRevisions(s, folder), GetParent(s, rev), GetFolders(s, rev),
                       GetPasswords(s, rev));
  }

  /** Every MODEL key survives the later facets, with its MODEL value except
      for ParentKey under PARENT. */
  lemma AssembleKeepsModel(o1: Fields, d: Detail, revisions: Value, parent: Result<Value>,
                           folders: Result<Value>, passwords: Value)
    requires o1.Keys == ModelKeys
    requires Assemble(o1, d, revisions, parent, folders, passwords).Success?
    ensures var o := Assemble(o1, d, revisions, parent, folders, passwords).value;
            && ModelKeys <= o.Keys
            && forall k :: k in ModelKeys && (k != ParentKey || !d.parent) ==> o[k] == o1[k]
  {
    var o := Assemble(o1, d, revisions, parent, folders, passwords).value;
    forall k | k in ModelKeys ensures k in o && (k != ParentKey || !d.parent ==> o[k] == o1[k]) {
      LaterFacetsKeep(o1, d, revisions, parent, folders, passwords, k);
    }
  }

  /** The facets after MODEL write only their own keys: any other key of the
      MODEL array survives unchanged, ParentKey only when PARENT is not
      requested. */
  lemma LaterFacetsKeep(o1: Fields, d: Detail, revisions: Value, parent: Result<Value>, folders: Result<Value>,
                        passwords: Value, k: Key)
    requires k in o1 && k != RevisionsKey && k != FoldersKey && k != PasswordsKey
    requires Assemble(o1, d, revisions, parent, folders, passwords).Success?
    ensures var o := Assemble(o1, d, revisions, parent, folders, passwords).value;
            k in o && (k != ParentKey || !d.parent ==> o[k] == o1[k])
  {
  }

  /** Each later facet's entry, as its own function computes it; a key written
      by one facet is not written again by a later one. */
  lemma FacetsWrites(s: Services, folder: Folder, rev: FolderRevision, d: Detail)
    requires Facets(s, folder, rev, d).Success?
    ensures var o := Facets(s, folder, rev, d).value;
            && (d.revisions ==> RevisionsKey in o && o[RevisionsKey] == GetRevisions(s, folder))
            && (d.parent ==> GetParent(s, rev).Success? && ParentKey in o && o[ParentKey] == GetParent(s, rev).value)
            && (d.folders ==> GetFolders(s, rev).Success? && FoldersKey in o && o[FoldersKey] == GetFolders(s, rev).value)
            && (d.passwords ==> PasswordsKey in o && o[PasswordsKey] == GetPasswords(s, rev))
  {
    var rv, p, f, pw := GetRevisions(s, folder), GetParent(s, rev), GetFolders(s, rev), GetPasswords(s, rev);
    AssembleWrites(Initial(folder, rev, d), d, rv, p, f, pw);
  }

  lemma AssembleWrites(o1: Fields, d: Detail, revisions: Value, parent: Result<Value>, folders: Result<Value>,
                       passwords: Value)
    requires Assemble(o1, d, revisions, parent, folders, passwords).Success?
    ensures var o := Assemble(o1, d, revisions, parent, folders, passwords).value;
            && (d.revisions ==> RevisionsKey in o && o[RevisionsKey] == revisions)
            && (d.parent ==> parent.Success? && ParentKey in o && o[ParentKey] == parent.value)
            && (d.folders ==> folders.Success? && FoldersKey in o && o[FoldersKey] == folders.value)
            && (d.passwords ==> PasswordsKey in o && o[PasswordsKey] == passwords)
  {
  }

  /** REVISIONS facet: one flat entry per revision of `findByModel`, in order. */
  lemma RevisionsFacet(s: Services, folder: Folder, level: string, excludeHidden: bool, excludeTrash: bool)
    requires LevelRevisions in Split(level)
    requires GetApiObject(s, folder, level, excludeHidden, excludeTrash).Success?
    requires GetApiObject(s, folder, level, excludeHidden, excludeTrash).value.Some?
    ensures var o := GetApiObject(s, folder, level, excludeHidden, excludeTrash).value.value;
            var history := s.byModel(folder.uuid);
            && RevisionsKey in o && o[RevisionsKey].List?
            && |o[RevisionsKey].items| == |history|
            && forall i :: 0 <= i < |history| ==>
                 o[RevisionsKey].items[i] == Obj(RevisionFields(history[i])) && FlatFields(RevisionFields(history[i]))
  {
    VisibleObjectIsFacets(s, folder, level, excludeHidden, excludeTrash);
    FacetsWrites(s, folder, s.revisions[folder.revision], Requested(level));
    forall i | 0 <= i < |s.byModel(folder.uuid)| ensures FlatFields(RevisionFields(s.byModel(folder.uuid)[i])) {
      RevisionFieldsShape(s.byModel(folder.uuid)[i]);
    }
  }

  /** PARENT facet: the parent's MODEL projection under inverted flags when it
      is not null, otherwise the base folder's under the default flags
      (hidden excluded, trash included), which is null when the base folder is
      hidden. It overwrites the MODEL ParentKey uuid. */
  lemma ParentFacet(s: Services, folder: Folder, level: string, excludeHidden: bool, excludeTrash: bool)
    requires LevelParent in Split(level)
    requires GetApiObject(s, folder, level, excludeHidden, excludeTrash).Success?
    requires GetApiObject(s, folder, level, excludeHidden, excludeTrash).value.Some?
    ensures var o := GetApiObject(s, folder, level, excludeHidden, excludeTrash).value.value;
            var rev := s.revisions[folder.revision];
            && rev.parent in s.folders
            && var parent := s.folders[rev.parent];
            && parent.revision in s.revisions
            && var prev := s.revisions[parent.revision];
            && ParentKey in o
            && (!Excluded(prev.hidden, prev.trashed, !rev.hidden, !rev.trashed) ==>
                  o[ParentKey] == Obj(ModelFields(parent, prev)))
            && (Excluded(prev.hidden, prev.trashed, !rev.hidden, !rev.trashed) ==>
                  && s.baseFolder.revision in s.revisions
                  && var brev := s.revisions[s.baseFolder.revision];
                  o[ParentKey] == if brev.hidden then Null else Obj(ModelFields(s.baseFolder, brev)))
  {
    VisibleObjectIsFacets(s, folder, level, excludeHidden, excludeTrash);
    var rev := s.revisions[folder.revision];
    FacetsWrites(s, folder, rev, Requested(level));
    ParentEntry(s, rev);
  }

  /** The entry `getParent` computes when it succeeds. */
  lemma ParentEntry(s: Services, rev: FolderRevision)
    requires GetParent(s, rev).Success?
    ensures && rev.parent in s.folders
            && var parent := s.folders[rev.parent];
            && parent.revision in s.revisions
            && var prev := s.revisions[parent.revision];
            && (!Excluded(prev.hidden, prev.trashed, !rev.hidden, !rev.trashed) ==>
                  GetParent(s, rev).value == Obj(ModelFields(parent, prev)))
            && (Excluded(prev.hidden, prev.trashed, !rev.hidden, !rev.trashed) ==>
                  && s.baseFolder.revision in s.revisions
                  && var brev := s.revisions[s.baseFolder.revision];
                  GetParent(s, rev).value == if brev.hidden then Null else Obj(ModelFields(s.baseFolder, brev)))
  {
    var parent := s.folders[rev.parent];
    assert parent.revision in s.revisions;
    var prev := s.revisions[parent.revision];
    if Excluded(prev.hidden, prev.trashed, !rev.hidden, !rev.trashed) {
      assert ModelObject(s, parent, !rev.hidden, !rev.trashed) == Success(None);
      assert s.baseFolder.revision in s.revisions;
    }
  }

  /** FOLDERS facet: exactly the non-null MODEL projections of `findByParent`,
      in order, under the folder's inverted flags; the key is always there. */
  lemma FoldersFacet(s: Services, folder: Folder, level: string, excludeHidden: bool, excludeTrash: bool)
    requires LevelFolders in Split(level)
    requires GetApiObject(s, folder, level, excludeHidden, excludeTrash).Success?
    requires GetApiObject(s, folder, level, excludeHidden, excludeTrash).value.Some?
    ensures var o := GetApiObject(s, folder, level, excludeHidden, excludeTrash).value.value;
            var rev := s.revisions[folder.revision];
            var children := s.byParent(rev.model);
            && AllResolvable(s, children)
            && FoldersKey in o
            && o[FoldersKey] == List(VisibleModels(s, children, !rev.hidden, !rev.trashed))
            && |o[FoldersKey].items| <= |children|
  {
    VisibleObjectIsFacets(s, folder, level, excludeHidden, excludeTrash);
    var rev := s.revisions[folder.revision];
    FacetsWrites(s, folder, rev, Requested(level));
    var children := s.byParent(rev.model);
    CollectFoldersIsVisibleModels(s, children, !rev.hidden, !rev.trashed);
    VisibleModelsMembers(s, children, !rev.hidden, !rev.trashed);
  }

  /** PASSWORDS facet: the non-null projections of `findByFolder`, in order,
      under the folder's inverted flags; the key is always there. */
  lemma PasswordsFacet(s: Services, folder: Folder, level: string, excludeHidden: bool, excludeTrash: bool)
    requires LevelPasswords in Split(level)
    requires GetApiObject(s, folder, level, excludeHidden, excludeTrash).Success?
    requires GetApiObject(s, folder, level, excludeHidden, excludeTrash).value.Some?
    ensures var o := GetApiObject(s, folder, level, excludeHidden, excludeTrash).value.value;
            var rev := s.revisions[folder.revision];
            var passwords := s.byFolder(rev.model);
            && PasswordsKey in o
            && o[PasswordsKey] == List(CollectPasswords(s.passwordObject, passwords, !rev.hidden, !rev.trashed))
            && |o[PasswordsKey].items| <= |passwords|
  {
    VisibleObjectIsFacets(s, folder, level, excludeHidden, excludeTrash);
    FacetsWrites(s, folder, s.revisions[folder.revision], Requested(level));
  }
}
