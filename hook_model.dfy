/** The webhook payload objects: MergeRequestHook, NoteHook and
    NoteObjectAttributes, each with setters, field-wise equals and the
    commons-lang hashCode; plus the payload values they hold. */
module HookModel {
  import opened Wrappers

  /** A GitLab user. Its class is not part of this model: a user is an opaque
      value identified by its payload, compared by value. */
  datatype User = User(payload: string)

  /** A merge-request label, an opaque value like User. */
  datatype MergeRequestLabel = MergeRequestLabel(payload: string)

  /** A GitLab project, with the four fields the compatibility code reads or
      writes; its other fields are not part of this model. */
  datatype Project = Project(
    namespace: Option<string>,
    url: Option<string>,
    homepage: Option<string>,
    httpUrl: Option<string>)

  /** The attributes of a merge request, with its source and target projects;
      its other fields are not part of this model. */
  datatype MergeRequestObjectAttributes = MergeRequestObjectAttributes(
    source: Option<Project>,
    target: Option<Project>)

  /** The repository of a push hook. */
  datatype Repository = Repository(url: Option<string>, gitHttpUrl: Option<string>)

  /** java.util.Date, by its milliseconds since the epoch. */
  datatype Date = Date(millis: int)

  // ---------------------------------------------------------------------------
  // Java int arithmetic and HashCodeBuilder(17, 37)

  predicate IsInt32(x: int) {
    -0x8000_0000 <= x < 0x8000_0000
  }

  /** The values a java.lang.Integer holds. */
  newtype Int32 = x: int | -0x8000_0000 <= x < 0x8000_0000

  /** A mathematical integer reduced to Java's 32-bit two's complement int. */
  function Wrap32(x: int): (r: int)
    ensures IsInt32(r)
    ensures (r - x) % 0x1_0000_0000 == 0
    ensures IsInt32(x) ==> r == x
  {
    (x + 0x8000_0000) % 0x1_0000_0000 - 0x8000_0000
  }

  /** The hash a HashCodeBuilder(17, 37) reaches after appending the given
      field hashes in order; a null field (None) contributes 0. */
  function HashCodeBuilder(hashes: seq<Option<int>>): (total: int)
    ensures IsInt32(total)
  {
    if hashes == [] then 17
    else
      var previous := HashCodeBuilder(hashes[..|hashes| - 1]);
      var last := hashes[|hashes| - 1];
      Wrap32(previous * 37 + (if last.Some? then last.value else 0))
  }

  /** Appending one more field multiplies by 37 and adds its hash, in int arithmetic. */
  lemma HashCodeBuilderAppend(hashes: seq<Option<int>>, h: Option<int>)
    ensures HashCodeBuilder(hashes + [h]) == Wrap32(HashCodeBuilder(hashes) * 37 + h.GetOr(0))
  {
    assert (hashes + [h])[..|hashes + [h]| - 1] == hashes;
  }

  /** String.hashCode: s[0]*31^(n-1) + ... + s[n-1], in int arithmetic. */
  function StringHash(s: string): (h: int)
    ensures IsInt32(h)
  {
    if s == [] then 0 else Wrap32(StringHash(s[..|s| - 1]) * 31 + s[|s| - 1] as int)
  }

  /** The hashCode of the field types whose classes are not part of this model. */
  datatype ForeignHashes = ForeignHashes(
    user: User -> int,
    project: Project -> int,
    mergeRequest: MergeRequestObjectAttributes -> int,
    labels: seq<MergeRequestLabel> -> int,
    date: Date -> int)

  function HashOf<T>(x: Option<T>, hash: T -> int): Option<int> {
    if x.Some? then Some(hash(x.value)) else None
  }

  // ---------------------------------------------------------------------------
  // Object identity for equals(Object)

  /** The argument of an equals(Object) call: null, one of the modelled
      classes, or an object of some other class. */
  datatype JavaObject =
    | Null
    | AMergeRequestHook(mergeRequestHook: MergeRequestHook)
    | ANoteHook(noteHook: NoteHook)
    | ANoteObjectAttributes(noteObjectAttributes: NoteObjectAttributes)
    | OtherObject

  // ---------------------------------------------------------------------------
  // MergeRequestHook

  /** The state of a MergeRequestHook. */
  datatype MergeRequestHookValue = MergeRequestHookValue(
    user: Option<User>,
    assignee: Option<User>,
    project: Option<Project>,
    objectAttributes: Option<MergeRequestObjectAttributes>,
    labels: Option<seq<MergeRequestLabel>>)

  class MergeRequestHook {
    var user: Option<User>
    var assignee: Option<User>
    var project: Option<Project>
    var objectAttributes: Option<MergeRequestObjectAttributes>
    var labels: Option<seq<MergeRequestLabel>>

    function Value(): MergeRequestHookValue
      reads this
    {
      MergeRequestHookValue(user, assignee, project, objectAttributes, labels)
    }

    /** A fresh hook has every field null. */
    constructor ()
      ensures Value() == MergeRequestHookValue(None, None, None, None, None)
    {
      user := None;
      assignee := None;
      project := None;
      objectAttributes := None;
      labels := None;
    }

    method SetUser(user: Option<User>)
      modifies this`user
      ensures Value() == old(Value()).(user := user)
    {
      this.user := user;
    }

    method SetAssignee(assignee: Option<User>)
      modifies this`assignee
      ensures Value() == old(Value()).(assignee := assignee)
    {
      this.assignee := assignee;
    }

    method SetProject(project: Option<Project>)
      modifies this`project
      ensures Value() == old(Value()).(project := project)
    {
      this.project := project;
    }

    method SetObjectAttributes(objectAttributes: Option<MergeRequestObjectAttributes>)
      modifies this`objectAttributes
      ensures Value() == old(Value()).(objectAttributes := objectAttributes)
    {
      this.objectAttributes := objectAttributes;
    }

    method SetLabels(labels: Option<seq<MergeRequestLabel>>)
      modifies this`labels
      ensures Value() == old(Value()).(labels := labels)
    {
      this.labels := labels;
    }

    /** equals(Object): the same object, or another MergeRequestHook whose five
        fields are equal. */
    predicate Equals(o: JavaObject)
      reads this, if o.AMergeRequestHook? then {o.mergeRequestHook} else {}
      ensures Equals(o) <==> o.AMergeRequestHook? && o.mergeRequestHook.Value() == Value()
    {
      match o
      case AMergeRequestHook(that) =>
        that == this ||
        (that.user == user && that.assignee == assignee && that.project == project
         && that.objectAttributes == objectAttributes && that.labels == labels)
      case _ => false
    }

    /** hashCode: the five fields appended in declaration order. */
    function HashCode(h: ForeignHashes): (r: int)
      reads this
      ensures IsInt32(r)
    {
      HashCodeBuilder([HashOf(user, h.user), HashOf(assignee, h.user), HashOf(project, h.project),
                       HashOf(objectAttributes, h.mergeRequest), HashOf(labels, h.labels)])
    }
  }

  // ---------------------------------------------------------------------------
  // NoteObjectAttributes

  /** The state of a NoteObjectAttributes, in declaration order. */
  datatype NoteObjectAttributesValue = NoteObjectAttributesValue(
    id: Option<Int32>,
    note: Option<string>,
    authorId: Option<Int32>,
    projectId: Option<Int32>,
    createdAt: Option<Date>,
    updatedAt: Option<Date>,
    url: Option<string>)

  class NoteObjectAttributes {
    var id: Option<Int32>
    var note: Option<string>
    var authorId: Option<Int32>
    var projectId: Option<Int32>
    var createdAt: Option<Date>
    var updatedAt: Option<Date>
    var url: Option<string>

    function Value(): NoteObjectAttributesValue
      reads this
    {
      NoteObjectAttributesValue(id, note, authorId, projectId, createdAt, updatedAt, url)
    }

    /** A fresh instance has all seven fields null. */
    constructor ()
      ensures Value() == NoteObjectAttributesValue(None, None, None, None, None, None, None)
    {
      id := None;
      note := None;
      authorId := None;
      projectId := None;
      createdAt := None;
      updatedAt := None;
      url := None;
    }

    method SetId(id: Option<Int32>)
      modifies this`id
      ensures Value() == old(Value()).(id := id)
    {
      this.id := id;
    }

    method SetProjectId(projectId: Option<Int32>)
      modifies this`projectId
      ensures Value() == old(Value()).(projectId := projectId)
    {
      this.projectId := projectId;
    }

    method SetAuthorId(authorId: Option<Int32>)
      modifies this`authorId
      ensures Value() == old(Value()).(authorId := authorId)
    {
      this.authorId := authorId;
    }

    method SetCreatedAt(createdAt: Option<Date>)
      modifies this`createdAt
      ensures Value() == old(Value()).(createdAt := createdAt)
    {
      this.createdAt := createdAt;
    }

    method SetUpdatedAt(updatedAt: Option<Date>)
      modifies this`updatedAt
      ensures Value() == old(Value()).(updatedAt := updatedAt)
    {
      this.updatedAt := updatedAt;
    }

    method SetNote(note: Option<string>)
      modifies this`note
      ensures Value() == old(Value()).(note := note)
    {
      this.note := note;
    }

    method SetUrl(url: Option<string>)
      modifies this`url
      ensures Value() == old(Value()).(url := url)
    {
      this.url := url;
    }

    /** equals(Object): the same object, or another NoteObjectAttributes whose
        seven fields are equal. */
    predicate Equals(o: JavaObject)
      reads this, if o.ANoteObjectAttributes? then {o.noteObjectAttributes} else {}
      ensures Equals(o) <==> o.ANoteObjectAttributes? && o.noteObjectAttributes.Value() == Value()
    {
      match o
      case ANoteObjectAttributes(that) =>
        that == this ||
        (that.id == id && that.note == note && that.projectId == projectId && that.authorId == authorId
         && that.createdAt == createdAt && that.updatedAt == updatedAt && that.url == url)
      case _ => false
    }

    /** hashCode: id, note, projectId, authorId, createdAt, updatedAt, url;
        Integer.hashCode is the value and String.hashCode is StringHash. */
    function HashCode(h: ForeignHashes): (r: int)
      reads this
      ensures IsInt32(r)
    {
      HashCodeBuilder([HashOf(id, (i: Int32) => i as int), HashOf(note, StringHash), HashOf(projectId, (i: Int32) => i as int),
                       HashOf(authorId, (i: Int32) => i as int), HashOf(createdAt, h.date), HashOf(updatedAt, h.date),
                       HashOf(url, StringHash)])
    }
  }

  // ---------------------------------------------------------------------------
  // NoteHook

  /** The state of a NoteHook; its objectAttributes is a reference to a mutable
      NoteObjectAttributes, so its value is read through that object. */
  datatype NoteHookValue = NoteHookValue(
    user: Option<User>,
    project: Option<Project>,
    mergeRequest: Option<MergeRequestObjectAttributes>,
    objectAttributes: Option<NoteObjectAttributesValue>)

  class NoteHook {
    var user: Option<User>
    var project: Option<Project>
    var mergeRequest: Option<MergeRequestObjectAttributes>
    var objectAttributes: NoteObjectAttributes?

    /** The objects the hook's value depends on. */
    function Footprint(): set<object>
      reads this
    {
      {this} + if objectAttributes == null then {} else {objectAttributes}
    }

    function AttributesValue(): Option<NoteObjectAttributesValue>
      reads Footprint()
    {
      if objectAttributes == null then None else Some(objectAttributes.Value())
    }

    function Value(): NoteHookValue
      reads Footprint()
    {
      NoteHookValue(user, project, mergeRequest, AttributesValue())
    }

    /** A fresh note hook has all four fields null, mergeRequest included. */
    constructor ()
      ensures Value() == NoteHookValue(None, None, None, None)
      ensures objectAttributes == null
    {
      user := None;
      project := None;
      mergeRequest := None;
      objectAttributes := null;
    }

    method SetUser(user: Option<User>)
      modifies this`user
      ensures Value() == old(Value()).(user := user)
    {
      this.user := user;
    }

    method SetProject(project: Option<Project>)
      modifies this`project
      ensures Value() == old(Value()).(project := project)
    {
      this.project := project;
    }

    method SetMergeRequest(mergeRequest: Option<MergeRequestObjectAttributes>)
      modifies this`mergeRequest
      ensures Value() == old(Value()).(mergeRequest := mergeRequest)
    {
      this.mergeRequest := mergeRequest;
    }

    /** Stores the reference itself: later changes to the attributes object
        show through the hook. */
    method SetObjectAttributes(objectAttributes: NoteObjectAttributes?)
      modifies this`objectAttributes
      ensures this.objectAttributes == objectAttributes
      ensures Value() == old(Value()).(objectAttributes := if objectAttributes == null then None else Some(objectAttributes.Value()))
    {
      this.objectAttributes := objectAttributes;
    }

    /** equals(Object): the same object, or another NoteHook whose user,
        project, objectAttributes and mergeRequest are equal; the attributes
        are compared with NoteObjectAttributes.equals. */
    predicate Equals(o: JavaObject)
      reads Footprint(), if o.ANoteHook? then o.noteHook.Footprint() else {}
      ensures Equals(o) <==> o.ANoteHook? && o.noteHook.Value() == Value()
    {
      match o
      case ANoteHook(that) =>
        that == this ||
        (that.user == user && that.project == project
         && AttributesEqual(objectAttributes, that.objectAttributes)
         && that.mergeRequest == mergeRequest)
      case _ => false
    }

    /** hashCode: user, project, objectAttributes, mergeRequest. */
    function HashCode(h: ForeignHashes): (r: int)
      reads Footprint()
      ensures IsInt32(r)
    {
      HashCodeBuilder([HashOf(user, h.user), HashOf(project, h.project),
                       if objectAttributes == null then None else Some(objectAttributes.HashCode(h)),
                       HashOf(mergeRequest, h.mergeRequest)])
    }
  }

  /** EqualsBuilder.append on two NoteObjectAttributes references: the same
      reference, or both non-null and equal by NoteObjectAttributes.equals. */
  predicate AttributesEqual(a: NoteObjectAttributes?, b: NoteObjectAttributes?)
    reads if a == null then {} else {a}, if b == null then {} else {b}
    ensures AttributesEqual(a, b) <==>
      (if a == null then None else Some(a.Value())) == (if b == null then None else Some(b.Value()))
  {
    a == b || (a != null && b != null && a.Equals(ANoteObjectAttributes(b)))
  }

  // ---------------------------------------------------------------------------
  // PushHook

  /** PushHook reduced to the two fields the push compatibility code uses; its
      class is not part of this model. */
  class PushHook {
    var project: Option<Project>
    var repository: Option<Repository>

    constructor (project: Option<Project>, repository: Option<Repository>)
      ensures this.project == project && this.repository == repository
    {
      this.project := project;
      this.repository := repository;
    }

    method SetProject(project: Option<Project>)
      modifies this`project
      ensures this.project == project
    {
      this.project := project;
    }
  }

  // ---------------------------------------------------------------------------
  // Properties of equals and hashCode

  /** MergeRequestHook.equals is reflexive, false for null and for other
      classes, symmetric and transitive; equal hooks have equal hash codes. */
  lemma MergeRequestHookEquality(a: MergeRequestHook, b: MergeRequestHook, c: MergeRequestHook, n: NoteHook, h: ForeignHashes)
    ensures a.Equals(AMergeRequestHook(a))
    ensures !a.Equals(Null) && !a.Equals(OtherObject) && !a.Equals(ANoteHook(n))
    ensures a.Equals(AMergeRequestHook(b)) <==> b.Equals(AMergeRequestHook(a))
    ensures a.Equals(AMergeRequestHook(b)) && b.Equals(AMergeRequestHook(c)) ==> a.Equals(AMergeRequestHook(c))
    ensures a.Equals(AMergeRequestHook(b)) ==> a.HashCode(h) == b.HashCode(h)
  {
  }

  /** NoteHook.equals has the same properties; it compares the attributes by value. */
  lemma NoteHookEquality(a: NoteHook, b: NoteHook, c: NoteHook, m: MergeRequestHook, h: ForeignHashes)
    ensures a.Equals(ANoteHook(a))
    ensures !a.Equals(Null) && !a.Equals(OtherObject) && !a.Equals(AMergeRequestHook(m))
    ensures a.Equals(ANoteHook(b)) <==> b.Equals(ANoteHook(a))
    ensures a.Equals(ANoteHook(b)) && b.Equals(ANoteHook(c)) ==> a.Equals(ANoteHook(c))
    ensures a.Equals(ANoteHook(b)) ==> a.HashCode(h) == b.HashCode(h)
  {
  }

  /** NoteObjectAttributes.equals has the same properties. */
  lemma NoteObjectAttributesEquality(a: NoteObjectAttributes, b: NoteObjectAttributes, c: NoteObjectAttributes, n: NoteHook, h: ForeignHashes)
    ensures a.Equals(ANoteObjectAttributes(a))
    ensures !a.Equals(Null) && !a.Equals(OtherObject) && !a.Equals(ANoteHook(n))
    ensures a.Equals(ANoteObjectAttributes(b)) <==> b.Equals(ANoteObjectAttributes(a))
    ensures a.Equals(ANoteObjectAttributes(b)) && b.Equals(ANoteObjectAttributes(c)) ==> a.Equals(ANoteObjectAttributes(c))
    ensures a.Equals(ANoteObjectAttributes(b)) ==> a.HashCode(h) == b.HashCode(h)
  {
  }

  /** A note hook aliases its attributes object: two hooks holding the same
      attributes object stay equal on that field whatever is later written into it. */
  lemma SharedAttributesCompareEqual(a: NoteHook, b: NoteHook)
    requires a.objectAttributes == b.objectAttributes
    ensures a.AttributesValue() == b.AttributesValue()
  {
  }

  /** Appending a null field multiplies the hash by 37, in int arithmetic. */
  lemma NullFieldAppended(fields: seq<Option<int>>, v: int)
    requires HashCodeBuilder(fields) == v
    ensures HashCodeBuilder(fields + [None]) == Wrap32(v * 37)
  {
    HashCodeBuilderAppend(fields, None);
  }

  /** With every field null, HashCodeBuilder(17, 37) over a note hook's four
      fields gives 17 * 37^4. */
  lemma FreshNoteHookHashCode()
    ensures HashCodeBuilder([None, None, None, None]) == 31860737
  {
    var none: Option<int> := None;
    NullFieldAppended([], 17);
    NullFieldAppended([none], 629);
    assert [none] + [none] == [none, none];
    NullFieldAppended([none, none], 23273);
    assert [none, none] + [none] == [none, none, none];
    NullFieldAppended([none, none, none], 861101);
    assert [none, none, none] + [none] == [none, none, none, none];
  }

  /** Over a merge request hook's five null fields it gives 17 * 37^5. */
  lemma FreshMergeRequestHookHashCode()
    ensures HashCodeBuilder([None, None, None, None, None]) == 1178847269
  {
    var none: Option<int> := None;
    FreshNoteHookHashCode();
    NullFieldAppended([none, none, none, none], 31860737);
    assert [none, none, none, none] + [none] == [none, none, none, none, none];
  }

  /** Over the attributes' seven null fields it gives 17 * 37^7 reduced to an
      int, which wraps around to a negative value. */
  lemma FreshNoteObjectAttributesHashCode()
    ensures HashCodeBuilder([None, None, None, None, None, None, None]) == -1065792035
  {
    var none: Option<int> := None;
    var five := [none, none, none, none, none];
    FreshMergeRequestHookHashCode();
    NullFieldAppended(five, 1178847269);
    NullFieldAppended(five + [none], 667675993);
    assert five + [none] + [none] == [none, none, none, none, none, none, none];
  }

  /** The fresh objects' hash codes do not depend on the foreign hash functions. */
  method FreshObjectHashes(h: ForeignHashes) returns (mergeRequestHash: int, noteHash: int, attributesHash: int)
    ensures mergeRequestHash == 1178847269 && noteHash == 31860737 && attributesHash == -1065792035
  {
    var m := new MergeRequestHook();
    var n := new NoteHook();
    var a := new NoteObjectAttributes();
    FreshMergeRequestHookHashCode();
    FreshNoteHookHashCode();
    FreshNoteObjectAttributesHashCode();
    mergeRequestHash := m.HashCode(h);
    noteHash := n.HashCode(h);
    attributesHash := a.HashCode(h);
  }
}
