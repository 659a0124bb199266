/**
 * The tag API-object helper: the PHP array returned for a tag at a requested
 * '+'-separated detail level, with the tag's passwords projected at MODEL
 * level under visibility flags inverted from the tag's own.
 */
module TagObjects {
  import opened Common

  const LevelModel: string := "model"
  const LevelRevisions: string := "revisions"
  const LevelPasswords: string := "passwords"

  datatype Tag = Tag(uuid: Uuid, userId: string, created: int, updated: int, revision: Uuid)

  datatype TagRevision = TagRevision(
    uuid: Uuid, model: Uuid, userId: string, created: int, updated: int,
    labelText: string, color: string, hidden: bool, trashed: bool, favourite: bool)

  /** The services the helper reads: the revision `findByUuid` lookup (a
      missing key throws `DoesNotExistException`), the two list queries, and
      the password helper's MODEL-level projection (null or an array). */
  datatype Services = Services(
    revisions: map<Uuid, TagRevision>,
    byModel: Uuid -> seq<TagRevision>,
    byTag: Uuid -> seq<Password>,
    passwordObject: PasswordProjection)

  const ModelKeys: set<Key> :=
    {IdKey, OwnerKey, CreatedKey, UpdatedKey, RevisionKey, LabelKey, ColorKey, HiddenKey, TrashedKey, FavouriteKey}

  /** One entry of `getModel`: identity, timestamps and the revision reference
      from the tag, the rest from its current revision. */
  function ModelEntry(t: Tag, r: TagRevision, k: Key): Value {
    match k
    case IdKey => Id(t.uuid)
    case OwnerKey => Str(t.userId)
    case CreatedKey => Int(t.created)
    case UpdatedKey => Int(t.updated)
    case RevisionKey => Id(t.revision)
    case _ => RevisionEntry(r, k)
  }

  /** One entry of a revision in `getRevisions`: everything from the revision. */
  function RevisionEntry(r: TagRevision, k: Key): Value {
    match k
    case IdKey => Id(r.uuid)
    case OwnerKey => Str(r.userId)
    case CreatedKey => Int(r.created)
    case UpdatedKey => Int(r.updated)
    case LabelKey => Str(r.labelText)
    case ColorKey => Str(r.color)
    case HiddenKey => Bool(r.hidden)
    case TrashedKey => Bool(r.trashed)
    case FavouriteKey => Bool(r.favourite)
    case _ => Null
  }

  /** `getModel`: the tag and its current revision, flattened. */
  function ModelFields(t: Tag, r: TagRevision): Fields {
    map k | k in ModelKeys :: ModelEntry(t, r, k)
  }

  /** One entry of `getRevisions`: the model keys except the revision reference. */
  function RevisionFields(r: TagRevision): Fields {
    map k | k in ModelKeys - {RevisionKey} :: RevisionEntry(r, k)
  }

  /** The facets a '+'-separated level asks for. */
  datatype Detail = Detail(model: bool, revisions: bool, passwords: bool)

  /** `explode('+', $level)` followed by one `in_array` test per facet. */
  function Requested(level: string): Detail {
    var parts := Split(level);
    Detail(LevelModel in parts, LevelRevisions in parts, LevelPasswords in parts)
  }

  /** `getApiObject`: null when the current revision is excluded, otherwise the
      facets requested. A missing current revision propagates the lookup error. */
  function GetApiObject(s: Services, tag: Tag, level: string, excludeHidden: bool, excludeTrash: bool)
    : (r: Result<Option<Fields>>)
    ensures tag.revision !in s.revisions ==> r == Failure(DoesNotExist)
    ensures tag.revision in s.revisions ==>
              var rev := s.revisions[tag.revision];
              && r.Success?
              && (r.value.None? <==> Excluded(rev.hidden, rev.trashed, excludeHidden, excludeTrash))
              && (r.value.Some? ==> r.value.value == Facets(s, tag, rev, Requested(level)))
  {
    if tag.revision !in s.revisions then Failure(DoesNotExist)
    else
      var rev := s.revisions[tag.revision];
      if excludeTrash && rev.trashed then Success(None)
      else if excludeHidden && rev.hidden then Success(None)
      else Success(Some(Facets(s, tag, rev, Requested(level))))
  }

  /** The array of a visible tag: the facets requested. */
  function Facets(s: Services, tag: Tag, rev: TagRevision, d: Detail): Fields {
    Assemble(if d.model then ModelFields(tag, rev) else map[], d, GetPasswords(s, rev), GetRevisions(s, tag))
  }

  /** Sets each requested facet's key on top of the MODEL array, in the order
      MODEL, PASSWORDS, REVISIONS. */
  function Assemble(o1: Fields, d: Detail, passwords: Value, revisions: Value): Fields {
    var o2 := if d.passwords then o1[PasswordsKey := passwords] else o1;
    if d.revisions then o2[RevisionsKey := revisions] else o2
  }

  /** `getRevisions`: the entry it stores under RevisionsKey, the flattened history. */
  function GetRevisions(s: Services, tag: Tag): Value {
    List(EntryList(s.byModel(tag.uuid), RevisionFields))
  }

  /** `getPasswords`: the entry it stores under PasswordsKey, even when no
      password survives. */
  function GetPasswords(s: Services, rev: TagRevision): Value {
    List(CollectPasswords(s.passwordObject, s.byTag(rev.model), !rev.hidden, !rev.trashed))
  }

  // ---------------------------------------------------------------------------
  // Properties
  // ---------------------------------------------------------------------------

  lemma ProjectionShape(t: Tag, r: TagRevision)
    ensures ModelFields(t, r).Keys == ModelKeys
    ensures FlatFields(ModelFields(t, r))
    ensures FlatFields(RevisionFields(r)) && RevisionKey !in RevisionFields(r) && ColorKey in RevisionFields(r)
  {
    ModelFieldsValues(t, r);
    ModelFieldsFlat(t, r);
    RevisionFieldsShape(r);
  }

  lemma ModelFieldsFlat(t: Tag, r: TagRevision)
    ensures FlatFields(ModelFields(t, r))
  {
    var m := ModelFields(t, r);
    forall k | k in m ensures Flat(m[k]) {
      assert m[k] == ModelEntry(t, r, k);
    }
  }

  lemma RevisionFieldsShape(r: TagRevision)
    ensures FlatFields(RevisionFields(r)) && RevisionKey !in RevisionFields(r)
    ensures ColorKey in RevisionFields(r) && RevisionFields(r)[ColorKey] == Str(r.color)
  {
    var m := RevisionFields(r);
    forall k | k in m ensures Flat(m[k]) {
      assert m[k] == RevisionEntry(r, k);
    }
  }

  /** The entries of `getModel` that the facet lemmas talk about. */
  lemma ModelFieldsValues(t: Tag, r: TagRevision)
    ensures var m := ModelFields(t, r);
            && m.Keys == ModelKeys
            && m[IdKey] == Id(t.uuid) && m[RevisionKey] == Id(t.revision)
            && m[LabelKey] == Str(r.labelText) && m[ColorKey] == Str(r.color)
            && m[HiddenKey] == Bool(r.hidden) && m[TrashedKey] == Bool(r.trashed)
            && m[FavouriteKey] == Bool(r.favourite)
  {
  }

  /** A non-null object is the facets of the tag's current revision. */
  lemma VisibleObjectIsFacets(s: Services, tag: Tag, level: string, excludeHidden: bool, excludeTrash: bool)
    requires GetApiObject(s, tag, level, excludeHidden, excludeTrash).Success?
    requires GetApiObject(s, tag, level, excludeHidden, excludeTrash).value.Some?
    ensures tag.revision in s.revisions
    ensures var rev := s.revisions[tag.revision];
            && !Excluded(rev.hidden, rev.trashed, excludeHidden, excludeTrash)
            && Facets(s, tag, rev, Requested(level)) == GetApiObject(s, tag, level, excludeHidden, excludeTrash).value.value
  {
  }

  /** An unrecognised level yields an empty, non-null array for a visible tag. */
  lemma UnknownLevelGivesEmptyObject(s: Services, tag: Tag, level: string, excludeHidden: bool, excludeTrash: bool)
    requires tag.revision in s.revisions
    requires var rev := s.revisions[tag.revision]; !Excluded(rev.hidden, rev.trashed, excludeHidden, excludeTrash)
    requires forall t :: t in Split(level) ==> t !in {LevelModel, LevelRevisions, LevelPasswords}
    ensures GetApiObject(s, tag, level, excludeHidden, excludeTrash) == Success(Some(map[]))
  {
    assert LevelModel !in Split(level);
    assert LevelRevisions !in Split(level);
    assert LevelPasswords !in Split(level);
  }

  /** With every facet requested the array is the MODEL array plus PASSWORDS
      plus REVISIONS, whatever the order of the tokens in the level; each
      facet adds only its own key. */
  lemma FacetOrder(s: Services, tag: Tag, rev: TagRevision, d: Detail)
    requires d.model && d.passwords && d.revisions
    ensures Facets(s, tag, rev, d)
            == ModelFields(tag, rev)[PasswordsKey := GetPasswords(s, rev)][RevisionsKey := GetRevisions(s, tag)]
    ensures Facets(s, tag, rev, d).Keys == ModelKeys + {PasswordsKey, RevisionsKey}
  {
    ModelFieldsValues(tag, rev);
  }

  /** MODEL facet: the revision reference is the tag's own; label, color and the
      three flags are the current revision's. */
  lemma ModelFacet(s: Services, tag: Tag, level: string, excludeHidden: bool, excludeTrash: bool)
    requires LevelModel in Split(level)
    requires GetApiObject(s, tag, level, excludeHidden, excludeTrash).Success?
    requires GetApiObject(s, tag, level, excludeHidden, excludeTrash).value.Some?
    ensures var o := GetApiObject(s, tag, level, excludeHidden, excludeTrash).value.value;
            var rev := s.revisions[tag.revision];
            && ModelKeys <= o.Keys
            && o[IdKey] == Id(tag.uuid) && o[RevisionKey] == Id(tag.revision)
            && o[LabelKey] == Str(rev.labelText) && o[ColorKey] == Str(rev.color)
            && o[HiddenKey] == Bool(rev.hidden) && o[TrashedKey] == Bool(rev.trashed)
            && o[FavouriteKey] == Bool(rev.favourite)
    ensures var o := GetApiObject(s, tag, level, excludeHidden, excludeTrash).value.value;
            forall k :: k in ModelKeys ==> o[k] == ModelFields(tag, s.revisions[tag.revision])[k]
  {
    VisibleObjectIsFacets(s, tag, level, excludeHidden, excludeTrash);
    var rev := s.revisions[tag.revision];
    ModelFieldsValues(tag, rev);
    AssembleKeepsModel(ModelFields(tag, rev), Requested(level), GetPasswords(s, rev), GetRevisions(s, tag));
  }

  /** PASSWORDS and REVISIONS leave every key of the MODEL array as it was. */
  lemma AssembleKeepsModel(o1: Fields, d: Detail, passwords: Value, revisions: Value)
    requires o1.Keys == ModelKeys
    ensures var o := Assemble(o1, d, passwords, revisions);
            && ModelKeys <= o.Keys
            && forall k :: k in ModelKeys ==> o[k] == o1[k]
  {
    var o := Assemble(o1, d, passwords, revisions);
    forall k | k in ModelKeys ensures k in o && o[k] == o1[k] {
      LaterFacetsKeep(o1, d, passwords, revisions, k);
    }
  }

  /** One key of the MODEL array survives PASSWORDS and REVISIONS unchanged. */
  lemma LaterFacetsKeep(o1: Fields, d: Detail, passwords: Value, revisions: Value, k: Key)
    requires k in o1 && k != PasswordsKey && k != RevisionsKey
    ensures var o := Assemble(o1, d, passwords, revisions);
            k in o && o[k] == o1[k]
  {
  }

  /** The entries PASSWORDS and REVISIONS store, when requested. */
  lemma AssembleWrites(o1: Fields, d: Detail, passwords: Value, revisions: Value)
    ensures var o := Assemble(o1, d, passwords, revisions);
            && (d.passwords ==> PasswordsKey in o && o[PasswordsKey] == passwords)
            && (d.revisions ==> RevisionsKey in o && o[RevisionsKey] == revisions)
  {
  }

  /** REVISIONS facet: one flat entry per revision of `findByModel`, in order,
      each carrying the revision's color. */
  lemma RevisionsFacet(s: Services, tag: Tag, level: string, excludeHidden: bool, excludeTrash: bool)
    requires LevelRevisions in Split(level)
    requires GetApiObject(s, tag, level, excludeHidden, excludeTrash).Success?
    requires GetApiObject(s, tag, level, excludeHidden, excludeTrash).value.Some?
    ensures var o := GetApiObject(s, tag, level, excludeHidden, excludeTrash).value.value;
            var history := s.byModel(tag.uuid);
            && RevisionsKey in o && o[RevisionsKey].List?
            && |o[RevisionsKey].items| == |history|
            && forall i :: 0 <= i < |history| ==>
                 && o[RevisionsKey].items[i] == Obj(RevisionFields(history[i]))
                 && RevisionFields(history[i])[ColorKey] == Str(history[i].color)
  {
    VisibleObjectIsFacets(s, tag, level, excludeHidden, excludeTrash);
    var rev := s.revisions[tag.revision];
    var d := Requested(level);
    AssembleWrites(if d.model then ModelFields(tag, rev) else map[], d, GetPasswords(s, rev), GetRevisions(s, tag));
    forall i | 0 <= i < |s.byModel(tag.uuid)|
      ensures RevisionFields(s.byModel(tag.uuid)[i])[ColorKey] == Str(s.byModel(tag.uuid)[i].color)
    {
      RevisionFieldsShape(s.byModel(tag.uuid)[i]);
    }
  }

  /** PASSWORDS facet: the non-null projections of `findByTag`, in order, under
      the tag's inverted flags; the key is always there. */
  lemma PasswordsFacet(s: Services, tag: Tag, level: string, excludeHidden: bool, excludeTrash: bool)
    requires LevelPasswords in Split(level)
    requires GetApiObject(s, tag, level, excludeHidden, excludeTrash).Success?
    requires GetApiObject(s, tag, level, excludeHidden, excludeTrash).value.Some?
    ensures var o := GetApiObject(s, tag, level, excludeHidden, excludeTrash).value.value;
            var rev := s.revisions[tag.revision];
            var passwords := s.byTag(rev.model);
            && PasswordsKey in o
            && o[PasswordsKey] == List(CollectPasswords(s.passwordObject, passwords, !rev.hidden, !rev.trashed))
            && |o[PasswordsKey].items| <= |passwords|
  {
    VisibleObjectIsFacets(s, tag, level, excludeHidden, excludeTrash);
    var rev := s.revisions[tag.revision];
    var d := Requested(level);
    AssembleWrites(if d.model then ModelFields(tag, rev) else map[], d, GetPasswords(s, rev), GetRevisions(s, tag));
  }
}
