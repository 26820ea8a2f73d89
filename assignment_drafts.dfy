/** Assignment drafts kept in the browser's local storage
    (`saveDraft`, `loadDraft` and `clearDraft` in static/js/assignments.js).
    Local storage is a map from keys to stored drafts; a stored draft is the
    object the JSON round trip gives back, a map from field names to
    values. */
module AssignmentDrafts {
  import opened Util

  const DraftPrefix: string := "assignmentDraft_"
  const DefaultId: string := "new"
  const DraftLoadedMessage: string := "Draft loaded"

  /** `'assignmentDraft_' + (form.dataset.classroomId || 'new')`: a missing
      or empty classroom id falls back to "new". */
  function DraftKey(classroomId: Option<string>): string
  {
    DraftPrefix + (if classroomId.None? || classroomId.value == "" then DefaultId else classroomId.value)
  }

  /** Every key carries the prefix, a missing id and an empty one share the
      "new" key, and distinct non-empty ids get distinct keys. The id
      "new" collides with the fallback. */
  lemma DraftKeySpec(a: Option<string>, b: Option<string>)
    ensures DraftKey(a)[..|DraftPrefix|] == DraftPrefix
    ensures DraftKey(None) == DraftKey(Some("")) == DraftKey(Some(DefaultId))
    ensures a.Some? && a.value != "" && b.Some? && b.value != "" ==>
      (DraftKey(a) == DraftKey(b) <==> a.value == b.value)
  {
    if a.Some? && a.value != "" && b.Some? && b.value != "" && DraftKey(a) == DraftKey(b) {
      assert a.value == DraftKey(a)[|DraftPrefix|..];
      assert b.value == DraftKey(b)[|DraftPrefix|..];
    }
  }

  /** A form entry's value: text, or a `File`, which the JSON round trip
      turns into an empty object. */
  datatype FormValue = Text(text: string) | FileValue

  /** The string a field gets when `field.value` is assigned the stored
      value: `String({})` for a file. */
  function ValueText(v: FormValue): string
  {
    match v
    case Text(s) => s
    case FileValue => "[object Object]"
  }

  /** `draftData[key] = value` over the entries in order: the last entry
      with a key wins. */
  function Collected(entries: seq<(string, FormValue)>): map<string, FormValue>
  {
    if entries == [] then map[]
    else Collected(entries[..|entries| - 1])[entries[|entries| - 1].0 := entries[|entries| - 1].1]
  }

  /** The keys of the draft are exactly the entry names. */
  lemma {:induction false} CollectedKeys(entries: seq<(string, FormValue)>)
    ensures forall k :: k in Collected(entries) <==> exists i :: 0 <= i < |entries| && entries[i].0 == k
  {
    if entries != [] {
      var init := entries[..|entries| - 1];
      CollectedKeys(init);
      forall k | k in Collected(entries)
        ensures exists i :: 0 <= i < |entries| && entries[i].0 == k
      {
        if k != entries[|entries| - 1].0 {
          assert k in Collected(init);
          var i :| 0 <= i < |init| && init[i].0 == k;
          assert entries[i].0 == k;
        }
      }
      forall k | exists i :: 0 <= i < |entries| && entries[i].0 == k
        ensures k in Collected(entries)
      {
        var i :| 0 <= i < |entries| && entries[i].0 == k;
        if i < |init| {
          assert init[i].0 == k;
        }
      }
    }
  }

  /** Each name maps to the value of its last entry. */
  lemma {:induction false} CollectedLast(entries: seq<(string, FormValue)>, i: int)
    requires 0 <= i < |entries|
    requires forall j :: i < j < |entries| ==> entries[j].0 != entries[i].0
    ensures entries[i].0 in Collected(entries) && Collected(entries)[entries[i].0] == entries[i].1
  {
    var init := entries[..|entries| - 1];
    if i < |entries| - 1 {
      CollectedLast(init, i);
    }
  }

  /** A form control: its name, its type and its current value. */
  datatype Field = Field(name: string, kind: string, value: string)

  function Names(fields: seq<Field>): seq<string>
  {
    seq(|fields|, i requires 0 <= i < |fields| => fields[i].name)
  }

  /** `form.querySelector('[name="k"]')`: the first control, in document
      order, with that name. */
  function FirstNamed(names: seq<string>, name: string): (r: Option<nat>)
    ensures r.Some? ==>
      r.value < |names| && names[r.value] == name && forall j :: 0 <= j < r.value ==> names[j] != name
    ensures r.None? ==> forall j :: 0 <= j < |names| ==> names[j] != name
  {
    if names == [] then None
    else if names[0] == name then Some(0)
    else match FirstNamed(names[1..], name)
      case None => None
      case Some(i) => Some(i + 1)
  }

  /** Whether `loadDraft` writes field i, once the keys in `done` have been
      processed: the field is the first with its name, the draft has that
      name among the processed keys, and the field is not a file input. */
  predicate Restores(fields: seq<Field>, draft: map<string, FormValue>, done: set<string>, i: int)
    requires 0 <= i < |fields|
  {
    var n := fields[i].name;
    n in done && n in draft && fields[i].kind != "file" && FirstNamed(Names(fields), n) == Some(i)
  }

  /** The form after restoring the processed keys of a draft. */
  function Restored(fields: seq<Field>, draft: map<string, FormValue>, done: set<string>): (r: seq<Field>)
    ensures |r| == |fields|
    ensures forall i :: 0 <= i < |fields| ==> r[i].name == fields[i].name && r[i].kind == fields[i].kind
  {
    seq(|fields|, i requires 0 <= i < |fields| =>
      if Restores(fields, draft, done, i) then fields[i].(value := ValueText(draft[fields[i].name]))
      else fields[i])
  }

  /** Restoring changes only values, never of a file input, and never of a
      control that a same-named earlier control shadows; every key of the
      draft that names a non-file first control sets that control's value. */
  lemma RestoredSpec(fields: seq<Field>, draft: map<string, FormValue>)
    ensures var r := Restored(fields, draft, draft.Keys);
      && Names(r) == Names(fields)
      && (forall i :: 0 <= i < |fields| && fields[i].kind == "file" ==> r[i] == fields[i])
      && (forall i :: 0 <= i < |fields| && fields[i].name !in draft ==> r[i] == fields[i])
      && (forall i :: 0 <= i < |fields| && FirstNamed(Names(fields), fields[i].name) != Some(i) ==> r[i] == fields[i])
      && (forall k :: k in draft ==> match FirstNamed(Names(fields), k)
            case None => true
            case Some(i) => r[i].value == (if fields[i].kind == "file" then fields[i].value else ValueText(draft[k])))
  {
  }

  /** The form being edited. */
  class DraftForm {
    var fields: seq<Field>

    constructor (fields: seq<Field>)
      ensures this.fields == fields
    {
      this.fields := fields;
    }
  }

  /** Local storage, restricted to the drafts it holds. */
  class DraftStorage {
    var items: map<string, map<string, FormValue>>

    constructor ()
      ensures items == map[]
    {
      items := map[];
    }

    /** `saveDraft`: collects the form entries and stores them under the
        form's key, replacing any earlier draft there and leaving the other
        keys alone. */
    method SaveDraft(classroomId: Option<string>, entries: seq<(string, FormValue)>)
      modifies this
      ensures items == old(items)[DraftKey(classroomId) := Collected(entries)]
    {
      var draftData: map<string, FormValue> := map[];
      for i := 0 to |entries|
        invariant draftData == Collected(entries[..i])
      {
        assert entries[..i + 1][..i] == entries[..i];
        draftData := draftData[entries[i].0 := entries[i].1];
      }
      assert entries[..|entries|] == entries;
      items := items[DraftKey(classroomId) := draftData];
    }

    /** `clearDraft`: removes the form's key and nothing else. */
    method ClearDraft(classroomId: Option<string>)
      modifies this
      ensures items == old(items) - {DraftKey(classroomId)}
    {
      items := items - {DraftKey(classroomId)};
    }

    /** `loadDraft`: when a draft is stored under the form's key, copies
        each of its values into the first control of that name unless it
        is a file input, and announces it; otherwise changes nothing. The
        keys are taken in an arbitrary order, the result does not depend
        on it. */
    method LoadDraft(classroomId: Option<string>, form: DraftForm) returns (notice: Option<string>)
      modifies form
      ensures DraftKey(classroomId) !in items ==> form.fields == old(form.fields) && notice == None
      ensures DraftKey(classroomId) in items ==>
        form.fields == Restored(old(form.fields), items[DraftKey(classroomId)], items[DraftKey(classroomId)].Keys)
        && notice == Some(DraftLoadedMessage)
    {
      var draftKey := DraftKey(classroomId);
      notice := None;
      if draftKey in items {
        var draftData := items[draftKey];
        ghost var original := form.fields;
        ghost var done: set<string> := {};
        var remaining := draftData.Keys;
        assert form.fields == Restored(original, draftData, done);
        while remaining != {}
          invariant remaining + done == draftData.Keys && remaining !! done
          invariant form.fields == Restored(original, draftData, done)
          decreases remaining
        {
          var key :| key in remaining;
          RestoreStep(original, draftData, done, key);
          var field := FirstNamed(Names(form.fields), key);
          if field.Some? && form.fields[field.value].kind != "file" {
            form.fields := form.fields[field.value := form.fields[field.value].(value := ValueText(draftData[key]))];
          }
          remaining := remaining - {key};
          done := done + {key};
        }
        notice := Some(DraftLoadedMessage);
      }
    }
  }

  /** One step of `LoadDraft`: processing one more key writes its first
      control, as `Restored` says. */
  lemma RestoreStep(original: seq<Field>, draft: map<string, FormValue>, done: set<string>, key: string)
    requires key in draft && key !in done
    ensures var cur := Restored(original, draft, done);
      var next := Restored(original, draft, done + {key});
      && Names(cur) == Names(original)
      && match FirstNamed(Names(original), key)
         case None => next == cur
         case Some(i) => next == (if cur[i].kind != "file" then cur[i := cur[i].(value := ValueText(draft[key]))] else cur)
  {
    var cur := Restored(original, draft, done);
    assert Names(cur) == Names(original);
  }
}
