/**
 * The prompt manager dialog: saving the template being edited (replacing the entry with
 * its id in place, or appending it), and deleting a template after confirmation. Entries
 * are the JavaScript values the prompt list holds; their `id`s are compared with `===`,
 * which on the string ids of templates is equality.
 */
module PromptManager {
  import opened Wrappers
  import opened JsValue

  /** `p.id`. */
  function IdOf(p: Value): Value { Get(p, "id") }

  /** `prompts.some(p => p.id === id)`. */
  predicate HasId(prompts: seq<Value>, id: Value) {
    exists i :: 0 <= i < |prompts| && IdOf(prompts[i]) == id
  }

  /** The list after saving `edited`: every entry with its id replaced by it, or, when
   *  there is none, `edited` appended. */
  function Upsert(prompts: seq<Value>, edited: Value): (r: seq<Value>)
    ensures HasId(prompts, IdOf(edited)) ==>
      && |r| == |prompts|
      && forall i :: 0 <= i < |prompts| ==>
           r[i] == (if IdOf(prompts[i]) == IdOf(edited) then edited else prompts[i])
    ensures !HasId(prompts, IdOf(edited)) ==> r == prompts + [edited]
  {
    if HasId(prompts, IdOf(edited)) then
      seq(|prompts|, i requires 0 <= i < |prompts| => if IdOf(prompts[i]) == IdOf(edited) then edited else prompts[i])
    else prompts + [edited]
  }

  /** `prompts.filter(p => p.id !== id)`. */
  function Remove(prompts: seq<Value>, id: Value): (r: seq<Value>)
    ensures forall p :: p in r <==> p in prompts && IdOf(p) != id
    ensures |r| <= |prompts|
  {
    if prompts == [] then []
    else
      var last := prompts[|prompts| - 1];
      var init := Remove(prompts[..|prompts| - 1], id);
      assert prompts == prompts[..|prompts| - 1] + [last];
      if IdOf(last) != id then init + [last] else init
  }

  /** After a save the edited template is in the list and no entry has its id but it. */
  lemma SavedIsPresent(prompts: seq<Value>, edited: Value)
    ensures edited in Upsert(prompts, edited)
    ensures forall p :: p in Upsert(prompts, edited) && IdOf(p) == IdOf(edited) ==> p == edited
  {
    var r := Upsert(prompts, edited);
    if HasId(prompts, IdOf(edited)) {
      var i :| 0 <= i < |prompts| && IdOf(prompts[i]) == IdOf(edited);
      assert r[i] == edited;
      forall p | p in r && IdOf(p) == IdOf(edited) ensures p == edited {
        var j :| 0 <= j < |r| && r[j] == p;
      }
    } else {
      forall p | p in prompts ensures IdOf(p) != IdOf(edited) {
        var j :| 0 <= j < |prompts| && prompts[j] == p;
      }
    }
  }

  /** Saving the same template twice is the same as saving it once. */
  lemma UpsertIdempotent(prompts: seq<Value>, edited: Value)
    ensures Upsert(Upsert(prompts, edited), edited) == Upsert(prompts, edited)
  {
    var r := Upsert(prompts, edited);
    if HasId(prompts, IdOf(edited)) {
      var i :| 0 <= i < |prompts| && IdOf(prompts[i]) == IdOf(edited);
      assert IdOf(r[i]) == IdOf(edited);
    } else {
      assert IdOf(r[|prompts|]) == IdOf(edited);
    }
  }

  /** Removing an id nobody has changes nothing. */
  lemma {:induction false} RemoveAbsent(prompts: seq<Value>, id: Value)
    requires !HasId(prompts, id)
    ensures Remove(prompts, id) == prompts
  {
    if prompts != [] {
      var init := prompts[..|prompts| - 1];
      assert !HasId(init, id) by {
        forall i | 0 <= i < |init| ensures IdOf(init[i]) != id {
          assert init[i] == prompts[i];
        }
      }
      RemoveAbsent(init, id);
      assert prompts == init + [prompts[|prompts| - 1]];
    }
  }

  /** The filter keeps the order of what it keeps: it splits over any cut of the list. */
  lemma {:induction false} RemoveSplit(a: seq<Value>, b: seq<Value>, id: Value)
    ensures Remove(a + b, id) == Remove(a, id) + Remove(b, id)
  {
    if b != [] {
      var init := b[..|b| - 1];
      assert (a + b)[..|a + b| - 1] == a + init;
      assert (a + b)[|a + b| - 1] == b[|b| - 1];
      RemoveSplit(a, init, id);
    } else {
      assert a + b == a;
    }
  }

  /** Adding a template with a new id and then deleting that id restores the list. */
  lemma AddThenDelete(prompts: seq<Value>, edited: Value)
    requires !HasId(prompts, IdOf(edited))
    ensures Remove(Upsert(prompts, edited), IdOf(edited)) == prompts
  {
    RemoveSplit(prompts, [edited], IdOf(edited));
    RemoveAbsent(prompts, IdOf(edited));
    assert [edited][..0] == [];
  }

  /** Deleting twice is deleting once. */
  lemma RemoveIdempotent(prompts: seq<Value>, id: Value)
    ensures Remove(Remove(prompts, id), id) == Remove(prompts, id)
  {
    var r := Remove(prompts, id);
    assert !HasId(r, id) by {
      forall i | 0 <= i < |r| ensures IdOf(r[i]) != id {
        assert r[i] in r;
      }
    }
    RemoveAbsent(r, id);
  }

  /** The dialog's own state beside the list it edits: the template in the form (null
   *  when none) and the id awaiting confirmation of its deletion (null when none). */
  class PromptDialog {
    var prompts: seq<Value>
    var editingPrompt: Value
    var deletingId: Value

    constructor (prompts: seq<Value>)
      ensures this.prompts == prompts && editingPrompt == Null && deletingId == Null
    {
      this.prompts := prompts;
      editingPrompt := Null;
      deletingId := Null;
    }

    /** Opening the form on a template, new or existing. */
    method Edit(template: Value)
      modifies this
      ensures editingPrompt == template && prompts == old(prompts) && deletingId == old(deletingId)
    {
      editingPrompt := template;
    }

    /** handleSavePrompt: no template in the form does nothing; otherwise the list gets
     *  the template in place or at the end, and the form closes. */
    method SavePrompt()
      modifies this
      ensures !Truthy(old(editingPrompt)) ==> prompts == old(prompts) && editingPrompt == old(editingPrompt)
      ensures Truthy(old(editingPrompt)) ==> prompts == Upsert(old(prompts), old(editingPrompt)) && editingPrompt == Null
      ensures deletingId == old(deletingId)
    {
      if !Truthy(editingPrompt) {
        return;
      }
      var current, edited := prompts, editingPrompt;
      var newPrompts: seq<Value>;
      if exists i :: 0 <= i < |current| && IdOf(current[i]) == IdOf(edited) {
        newPrompts := seq(|current|, i requires 0 <= i < |current| =>
          if IdOf(current[i]) == IdOf(edited) then edited else current[i]);
      } else {
        newPrompts := current + [edited];
      }
      prompts := newPrompts;
      editingPrompt := Null;
    }

    /** handleDeleteClick: remember the id; nothing is deleted yet. */
    method DeleteClick(id: Value)
      modifies this
      ensures deletingId == id && prompts == old(prompts) && editingPrompt == old(editingPrompt)
    {
      deletingId := id;
    }

    /** confirmDelete: with an id pending, every entry with that id goes and the request
     *  is cleared; with none (or a falsy one) nothing happens. */
    method ConfirmDelete()
      modifies this
      ensures Truthy(old(deletingId)) ==> prompts == Remove(old(prompts), old(deletingId)) && deletingId == Null
      ensures !Truthy(old(deletingId)) ==> prompts == old(prompts) && deletingId == old(deletingId)
      ensures editingPrompt == old(editingPrompt)
    {
      if Truthy(deletingId) {
        prompts := Remove(prompts, deletingId);
        deletingId := Null;
      }
    }
  }
}
