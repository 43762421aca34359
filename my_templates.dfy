/** The user's own contract templates: a list kept in the browser's key-value
    store under a per-user key, edited in a modal dialog.

    The store is modelled before serialisation: each key holds the template
    list itself, so writing a list and reading it back gives the same list. */
module MyTemplates {
  import opened Common

  /** A template; `id` is `None` for one that was never saved. */
  datatype Template = Template(id: Option<string>, name: string, content: string)

  /** `userTemplates_<user.id>` */
  function TemplatesKey(userId: string): (k: string)
    ensures StartsWith(k, "userTemplates_") && k[|"userTemplates_"|..] == userId
  {
    "userTemplates_" + userId
  }

  /** `{ id: null, name: '', content: '' }` */
  const NewTemplate := Template(None, "", "")

  /** A JavaScript id is truthy when it is a non-empty string. */
  predicate HasId(t: Template) { t.id.Some? && t.id.value != "" }

  /** `templates.map(t => t.id === current.id ? current : t)` */
  function ReplaceById(ts: seq<Template>, t: Template): (r: seq<Template>)
    ensures |r| == |ts|
    ensures forall i :: 0 <= i < |ts| && ts[i].id == t.id ==> r[i] == t
    ensures forall i :: 0 <= i < |ts| && ts[i].id != t.id ==> r[i] == ts[i]
  {
    seq(|ts|, i requires 0 <= i < |ts| => if ts[i].id == t.id then t else ts[i])
  }

  /** `templates.filter(t => t.id !== id)` */
  function WithoutId(ts: seq<Template>, id: Option<string>): (r: seq<Template>)
    ensures forall x :: x in r <==> x in ts && x.id != id
    ensures |r| <= |ts|
    decreases |ts|
  {
    if ts == [] then []
    else
      var init := ts[..|ts| - 1];
      var last := ts[|ts| - 1];
      assert ts == init + [last];
      WithoutId(init, id) + (if last.id == id then [] else [last])
  }

  /** The filter keeps the order: it distributes over concatenation. */
  lemma {:induction false} WithoutIdAppend(a: seq<Template>, b: seq<Template>, id: Option<string>)
    ensures WithoutId(a + b, id) == WithoutId(a, id) + WithoutId(b, id)
    decreases |b|
  {
    if b == [] {
      assert a + b == a;
    } else {
      var init := b[..|b| - 1];
      assert (a + b)[..|a + b| - 1] == a + init;
      assert (a + b)[|a + b| - 1] == b[|b| - 1];
      WithoutIdAppend(a, init, id);
    }
  }

  /** Filtering out an id nobody has changes nothing. */
  lemma {:induction false} WithoutAbsentId(ts: seq<Template>, id: Option<string>)
    requires forall i :: 0 <= i < |ts| ==> ts[i].id != id
    ensures WithoutId(ts, id) == ts
    decreases |ts|
  {
    if ts != [] {
      WithoutAbsentId(ts[..|ts| - 1], id);
      assert ts[..|ts| - 1] + [ts[|ts| - 1]] == ts;
    }
  }

  /** Deleting a template just created with a fresh id gives back the list
      as it was. */
  lemma CreateThenDelete(ts: seq<Template>, t: Template)
    requires forall i :: 0 <= i < |ts| ==> ts[i].id != t.id
    ensures WithoutId(ts + [t], t.id) == ts
  {
    assert (ts + [t])[..|ts|] == ts;
    WithoutAbsentId(ts, t.id);
  }

  /** Saving the same edit twice is the same as saving it once. */
  lemma ReplaceTwice(ts: seq<Template>, t: Template)
    ensures ReplaceById(ReplaceById(ts, t), t) == ReplaceById(ts, t)
  {
  }

  /** The page's state. `user` is the signed-in user's id. */
  class TemplatesPage {
    const user: Option<string>
    var templates: seq<Template>
    var modalOpen: bool
    var current: Option<Template>
    var store: map<string, seq<Template>>

    /** The list shown is the list stored under the user's key. */
    predicate Mirrored()
      reads this
    {
      user.Some? && TemplatesKey(user.value) in store && store[TemplatesKey(user.value)] == templates
    }

    constructor (user: Option<string>, store: map<string, seq<Template>>)
      ensures this.user == user && this.store == store
      ensures templates == [] && !modalOpen && current.None?
    {
      this.user := user;
      this.store := store;
      templates := [];
      modalOpen := false;
      current := None;
    }

    /** The effect on mount: the stored list, or none. */
    method Load()
      modifies this
      ensures user.Some? && TemplatesKey(user.value) in store ==> Mirrored()
      ensures user.Some? && TemplatesKey(user.value) !in store ==> templates == []
      ensures user.None? ==> templates == old(templates)
      ensures store == old(store) && modalOpen == old(modalOpen) && current == old(current)
    {
      if user.Some? {
        var key := TemplatesKey(user.value);
        templates := if key in store then store[key] else [];
      }
    }

    /** `saveUserTemplates`: the list shown and the list stored change
        together. */
    method SaveTemplates(ts: seq<Template>)
      requires user.Some?
      modifies this
      ensures templates == ts && store == old(store)[TemplatesKey(user.value) := ts] && Mirrored()
      ensures modalOpen == old(modalOpen) && current == old(current)
    {
      templates := ts;
      store := store[TemplatesKey(user.value) := ts];
    }

    method OpenModalForNew()
      modifies this
      ensures modalOpen && current == Some(NewTemplate)
      ensures templates == old(templates) && store == old(store)
    {
      current := Some(NewTemplate);
      modalOpen := true;
    }

    method OpenModalForEdit(t: Template)
      modifies this
      ensures modalOpen && current == Some(t)
      ensures templates == old(templates) && store == old(store)
    {
      current := Some(t);
      modalOpen := true;
    }

    /** The name and content inputs: `{ ...prev, name }`, where a missing
        template spreads to nothing. */
    method EditName(name: string)
      modifies this
      ensures current == Some(old(current).GetOr(Template(None, "", "")).(name := name))
      ensures templates == old(templates) && store == old(store) && modalOpen == old(modalOpen)
    {
      current := Some(current.GetOr(Template(None, "", "")).(name := name));
    }

    method EditContent(content: string)
      modifies this
      ensures current == Some(old(current).GetOr(Template(None, "", "")).(content := content))
      ensures templates == old(templates) && store == old(store) && modalOpen == old(modalOpen)
    {
      current := Some(current.GetOr(Template(None, "", "")).(content := content));
    }

    /** `handleFileUpload`: a plain-text file's text becomes the content;
        any other file changes nothing. `text` is what the reader delivers. */
    method UploadFile(plainText: bool, text: string)
      modifies this
      ensures plainText ==> current == Some(old(current).GetOr(Template(None, "", "")).(content := text))
      ensures !plainText ==> current == old(current)
      ensures templates == old(templates) && store == old(store) && modalOpen == old(modalOpen)
    {
      if plainText {
        EditContent(text);
      }
    }

    /** Cancel, or the dialog closing. */
    method CloseModal()
      modifies this
      ensures !modalOpen && current == old(current)
      ensures templates == old(templates) && store == old(store)
    {
      modalOpen := false;
    }

    /** `handleSaveTemplate`. Without a name or a content nothing changes.
        A template with an id replaces the entries with that id; one without
        is appended with the id `custom_<now>`. Then the modal closes. */
    method SaveTemplate(now: nat) returns (saved: bool)
      requires user.Some?
      modifies this
      ensures saved <==> old(current).Some? && old(current).value.name != "" && old(current).value.content != ""
      ensures !saved ==>
        templates == old(templates) && store == old(store) && modalOpen == old(modalOpen) && current == old(current)
      ensures saved && HasId(old(current).value) ==> templates == ReplaceById(old(templates), old(current).value)
      ensures saved && !HasId(old(current).value) ==>
        templates == old(templates) + [old(current).value.(id := Some("custom_" + NatToString(now)))]
      ensures saved ==> Mirrored() && store == old(store)[TemplatesKey(user.value) := templates]
      ensures saved ==> !modalOpen && current.None?
    {
      if current.None? || current.value.name == "" || current.value.content == "" {
        return false;
      }
      var t := current.value;
      var ts := templates;
      if HasId(t) {
        ts := ReplaceById(ts, t);
      } else {
        ts := ts + [t.(id := Some("custom_" + NatToString(now)))];
      }
      SaveTemplates(ts);
      modalOpen := false;
      current := None;
      return true;
    }

    /** `handleDeleteTemplate`, once the user has answered the confirmation. */
    method DeleteTemplate(id: Option<string>, confirmed: bool)
      requires user.Some?
      modifies this
      ensures confirmed ==>
        templates == WithoutId(old(templates), id) && Mirrored() && store == old(store)[TemplatesKey(user.value) := templates]
      ensures !confirmed ==> templates == old(templates) && store == old(store)
      ensures modalOpen == old(modalOpen) && current == old(current)
    {
      if confirmed {
        SaveTemplates(WithoutId(templates, id));
      }
    }
  }
}
