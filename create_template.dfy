/**
 * The template editor of src/pages/CreateTemplate.tsx: the list of declared
 * variables that the add, update and remove handlers replace, and the preview,
 * which substitutes each variable's default (or `[NAME]`) into the content.
 */
module CreateTemplate {
  import opened Wrappers
  import opened Text
  import opened TemplateService

  /** One `[field]: value` edit of `updateVariable`. */
  datatype VariableEdit =
    | SetId(id: string)
    | SetName(name: string)
    | SetType(varType: VarType)
    | SetRequired(required: bool)
    | SetDefault(defaultValue: Option<string>)
    | SetOptions(options: Option<seq<string>>)

  /** `{ ...v, [field]: value }`. */
  function ApplyEdit(v: TemplateVariable, e: VariableEdit): TemplateVariable
  {
    match e
    case SetId(x) => v.(id := x)
    case SetName(x) => v.(name := x)
    case SetType(x) => v.(varType := x)
    case SetRequired(x) => v.(required := x)
    case SetDefault(x) => v.(defaultValue := x)
    case SetOptions(x) => v.(options := x)
  }

  /** The variable `addVariable` creates: no name, text, optional. */
  function BlankVariable(id: string): TemplateVariable
  {
    TemplateVariable(id, "", TextVar, false, None, None)
  }

  /** `addVariable`: the list with one blank variable after the existing ones. */
  function AddVariable(vars: seq<TemplateVariable>, id: string): (r: seq<TemplateVariable>)
    ensures |r| == |vars| + 1 && r[..|vars|] == vars
    ensures r[|vars|].name == "" && r[|vars|].varType == TextVar && !r[|vars|].required
  {
    vars + [BlankVariable(id)]
  }

  /** `updateVariable`: the edit applied to every variable with that id, the rest untouched. */
  function UpdateVariable(vars: seq<TemplateVariable>, id: string, e: VariableEdit): (r: seq<TemplateVariable>)
    ensures |r| == |vars|
    ensures forall i :: 0 <= i < |vars| && vars[i].id != id ==> r[i] == vars[i]
    ensures forall i :: 0 <= i < |vars| && vars[i].id == id ==> r[i] == ApplyEdit(vars[i], e)
  {
    seq(|vars|, i requires 0 <= i < |vars| => if vars[i].id == id then ApplyEdit(vars[i], e) else vars[i])
  }

  /** `removeVariable`: `vars.filter(v => v.id !== id)`. */
  function RemoveVariable(vars: seq<TemplateVariable>, id: string): (r: seq<TemplateVariable>)
    ensures |r| <= |vars|
    decreases |vars|
  {
    if |vars| == 0 then []
    else if vars[0].id != id then [vars[0]] + RemoveVariable(vars[1..], id)
    else RemoveVariable(vars[1..], id)
  }

  /** `renderPreview`: the content with every declared placeholder replaced by the default or `[NAME]`. */
  method RenderPreview(content: string, vars: seq<TemplateVariable>) returns (preview: string)
    ensures preview == Substitute(content, vars, map[])
  {
    preview := content;
    var i := 0;
    while i < |vars|
      invariant 0 <= i <= |vars|
      invariant preview == Substitute(content, vars[..i], map[])
    {
      var variable := vars[i];
      var replacement := if Truthy(variable.defaultValue) then variable.defaultValue.value else Fallback(variable.name);
      SubstituteStep(content, vars, i, map[]);
      preview := ReplaceAll(preview, Placeholder(variable.name), replacement);
      i := i + 1;
    }
    assert vars[..i] == vars;
  }

  // ---------------------------------------------------------------------------

  /** In the preview a variable shows its default, or `[NAME]` when the default is empty or absent. */
  lemma PreviewValue(v: TemplateVariable)
    ensures Truthy(v.defaultValue) ==> ResolveValue(map[], v) == v.defaultValue.value
    ensures !Truthy(v.defaultValue) ==> ResolveValue(map[], v) == "[" + ToUpper(v.name) + "]"
  {
  }

  /** Removing keeps exactly the variables with another id, in their order. */
  lemma {:induction false} RemoveVariableMembership(vars: seq<TemplateVariable>, id: string, x: TemplateVariable)
    ensures x in RemoveVariable(vars, id) <==> x in vars && x.id != id
    decreases |vars|
  {
    if |vars| > 0 {
      RemoveVariableMembership(vars[1..], id, x);
      assert vars == [vars[0]] + vars[1..];
    }
  }

  /** Removing an id no variable has changes nothing. */
  lemma {:induction false} RemoveMissingIsIdentity(vars: seq<TemplateVariable>, id: string)
    requires forall i :: 0 <= i < |vars| ==> vars[i].id != id
    ensures RemoveVariable(vars, id) == vars
    decreases |vars|
  {
    if |vars| > 0 {
      RemoveMissingIsIdentity(vars[1..], id);
    }
  }

  /** Removing distributes over concatenation. */
  lemma {:induction false} RemoveVariableAppend(a: seq<TemplateVariable>, b: seq<TemplateVariable>, id: string)
    ensures RemoveVariable(a + b, id) == RemoveVariable(a, id) + RemoveVariable(b, id)
    decreases |a|
  {
    if |a| == 0 {
      assert a + b == b;
    } else {
      assert (a + b)[1..] == a[1..] + b;
      RemoveVariableAppend(a[1..], b, id);
    }
  }

  /** Adding a variable and then removing its id gives back the list, when the id was fresh. */
  lemma AddThenRemove(vars: seq<TemplateVariable>, id: string)
    requires forall i :: 0 <= i < |vars| ==> vars[i].id != id
    ensures RemoveVariable(AddVariable(vars, id), id) == vars
  {
    RemoveVariableAppend(vars, [BlankVariable(id)], id);
    RemoveMissingIsIdentity(vars, id);
    assert RemoveVariable([BlankVariable(id)], id) == [];
  }

  /** Updating an id no variable has changes nothing. */
  lemma UpdateMissingIsIdentity(vars: seq<TemplateVariable>, id: string, e: VariableEdit)
    requires forall i :: 0 <= i < |vars| ==> vars[i].id != id
    ensures UpdateVariable(vars, id, e) == vars
  {
  }

  /** An edit that keeps ids, made twice, is the same as made once. */
  lemma UpdateTwiceIsOnce(vars: seq<TemplateVariable>, id: string, e: VariableEdit)
    requires !e.SetId?
    ensures UpdateVariable(UpdateVariable(vars, id, e), id, e) == UpdateVariable(vars, id, e)
  {
    var once := UpdateVariable(vars, id, e);
    assert forall i :: 0 <= i < |vars| ==> once[i].id == vars[i].id;
  }

  /** An edit that keeps ids does not change which variables a removal deletes. */
  lemma {:induction false} UpdateThenRemove(vars: seq<TemplateVariable>, id: string, e: VariableEdit)
    requires !e.SetId?
    ensures RemoveVariable(UpdateVariable(vars, id, e), id) == RemoveVariable(vars, id)
    decreases |vars|
  {
    if |vars| > 0 {
      var u := UpdateVariable(vars, id, e);
      assert u[1..] == UpdateVariable(vars[1..], id, e);
      UpdateThenRemove(vars[1..], id, e);
    }
  }

  /** Editing the name of the only variable changes which placeholder the preview fills. */
  lemma RenamedVariableFillsNewPlaceholder(v: TemplateVariable, name: string)
    requires v.defaultValue == Some("Acme")
    ensures Substitute(Placeholder(name), UpdateVariable([v], v.id, SetName(name)), map[]) == "Acme"
  {
    var u := UpdateVariable([v], v.id, SetName(name));
    assert u == [v.(name := name)];
    assert u[..0] == [];
    ReplaceAllWhole(Placeholder(name), "Acme");
  }
}
