/**
 * The record-building and substitution logic of src/services/templateService.ts.
 * The database calls around it are opaque: what comes back from a select is a
 * parameter, and what goes into an insert or update is the result.
 */
module TemplateService {
  import opened Wrappers
  import opened Text

  datatype VarType = TextVar | NumberVar | DateVar | BooleanVar | DropdownVar

  /** A declared placeholder of a template. */
  datatype TemplateVariable = TemplateVariable(
    id: string,
    name: string,
    varType: VarType,
    required: bool,
    defaultValue: Option<string>,
    options: Option<seq<string>>)

  /** `TemplateData`: a template as the application sees it. */
  datatype TemplateData = TemplateData(
    id: string,
    name: string,
    description: string,
    category: string,
    tags: seq<string>,
    content: string,
    variables: seq<TemplateVariable>,
    usageCount: int,
    isPublic: bool,
    createdBy: string,
    createdAt: string,
    updatedAt: string)

  /** `CreateTemplateData`: what a caller supplies to create a template. */
  datatype CreateTemplateData = CreateTemplateData(
    name: string,
    description: string,
    category: string,
    tags: seq<string>,
    content: string,
    variables: seq<TemplateVariable>,
    isPublic: bool)

  /** A row of the `templates` table; `tags` and `variables` may be null. */
  datatype TemplateRow = TemplateRow(
    id: string,
    name: string,
    description: string,
    category: string,
    tags: Option<seq<string>>,
    content: string,
    variables: Option<seq<TemplateVariable>>,
    usage_count: int,
    is_public: bool,
    created_by: string,
    created_at: string,
    updated_at: string)

  /** The record `createTemplate` inserts (the store adds the timestamps). */
  datatype NewTemplate = NewTemplate(
    id: string,
    name: string,
    description: string,
    category: string,
    tags: seq<string>,
    content: string,
    variables: seq<TemplateVariable>,
    usage_count: int,
    is_public: bool,
    created_by: string)

  /** `Partial<CreateTemplateData>`: every field may be absent. */
  datatype TemplatePatch = TemplatePatch(
    name: Option<string>,
    description: Option<string>,
    category: Option<string>,
    tags: Option<seq<string>>,
    content: Option<string>,
    variables: Option<seq<TemplateVariable>>,
    isPublic: Option<bool>)

  /** The `updateData` record `updateTemplate` sends: absent fields are not written. */
  datatype TemplateUpdate = TemplateUpdate(
    updated_at: string,
    name: Option<string>,
    description: Option<string>,
    category: Option<string>,
    tags: Option<seq<string>>,
    content: Option<string>,
    variables: Option<seq<TemplateVariable>>,
    is_public: Option<bool>)

  // ---------------------------------------------------------------------------
  // Substitution

  /** `{{name}}`. */
  function Placeholder(name: string): (p: string)
    ensures |p| == |name| + 4 && StartsWith(p, "{{")
    ensures p[2..|p| - 2] == name && p[|p| - 2..] == "}}"
  {
    "{{" + name + "}}"
  }

  /** `[NAME]`, the text used when neither the caller nor the template gives a value. */
  function Fallback(name: string): (f: string)
    ensures |f| == |name| + 2 && f[0] == '[' && f[|f| - 1] == ']'
    ensures f[1..|f| - 1] == ToUpper(name)
  {
    "[" + ToUpper(name) + "]"
  }

  /** A string option that is present and non-empty, as JavaScript's `||` sees it. */
  predicate Truthy(s: Option<string>) {
    s.Some? && s.value != ""
  }

  /**
   * `variables[name] || defaultValue || [NAME]`: the caller's value, else the
   * declared default, else the fallback; an empty string counts as missing, so
   * the result is never empty.
   */
  function ResolveValue(values: map<string, string>, v: TemplateVariable): (value: string)
    ensures value != ""
    ensures value == Fallback(v.name) || value == v.defaultValue.GetOr("") ||
            (v.name in values && value == values[v.name])
    ensures v.name in values && values[v.name] != "" ==> value == values[v.name]
    ensures !(v.name in values && values[v.name] != "") && Truthy(v.defaultValue) ==> value == v.defaultValue.value
    ensures !(v.name in values && values[v.name] != "") && !Truthy(v.defaultValue) ==> value == Fallback(v.name)
  {
    if v.name in values && values[v.name] != "" then values[v.name]
    else if Truthy(v.defaultValue) then v.defaultValue.value
    else Fallback(v.name)
  }

  /**
   * The content after substituting the variables in declaration order: each
   * variable replaces every occurrence of its placeholder in the text the
   * earlier variables left behind.
   */
  function Substitute(content: string, vars: seq<TemplateVariable>, values: map<string, string>): (out: string)
    ensures |vars| == 0 ==> out == content
    decreases |vars|
  {
    if |vars| == 0 then content
    else
      var last := vars[|vars| - 1];
      ReplaceAll(Substitute(content, vars[..|vars| - 1], values), Placeholder(last.name), ResolveValue(values, last))
  }

  /** Substituting one more variable is one more replace-all. */
  lemma SubstituteStep(content: string, vars: seq<TemplateVariable>, i: int, values: map<string, string>)
    requires 0 <= i < |vars|
    ensures Substitute(content, vars[..i + 1], values) ==
      ReplaceAll(Substitute(content, vars[..i], values), Placeholder(vars[i].name), ResolveValue(values, vars[i]))
  {
    assert vars[..i + 1][..i] == vars[..i];
  }

  /**
   * `useTemplate`: a missing template throws; otherwise the usage counter is
   * written as one more than it was, and the placeholders are replaced one
   * variable at a time.
   */
  method UseTemplate(found: Option<TemplateData>, values: map<string, string>)
    returns (r: Result<string>, usageWritten: Option<int>)
    ensures found.None? ==> r == Failure("Template not found") && usageWritten.None?
    ensures found.Some? ==> usageWritten == Some(found.value.usageCount + 1)
    ensures found.Some? ==> r == Success(Substitute(found.value.content, found.value.variables, values))
  {
    if found.None? {
      return Failure("Template not found"), None;
    }
    var template := found.value;
    usageWritten := Some(template.usageCount + 1);
    var content := template.content;
    var i := 0;
    while i < |template.variables|
      invariant 0 <= i <= |template.variables|
      invariant content == Substitute(template.content, template.variables[..i], values)
    {
      var variable := template.variables[i];
      var value := ResolveValue(values, variable);
      SubstituteStep(template.content, template.variables, i, values);
      content := ReplaceAll(content, Placeholder(variable.name), value);
      i := i + 1;
    }
    assert template.variables[..i] == template.variables;
    r := Success(content);
  }

  /**
   * Content in which no declared placeholder occurs comes back unchanged: a
   * placeholder for an undeclared name is left as it is, and a template that
   * declares no variables renders its content as written.
   */
  lemma {:induction false} AbsentPlaceholdersNoChange(content: string, vars: seq<TemplateVariable>, values: map<string, string>)
    requires forall v :: v in vars ==> !Contains(content, Placeholder(v.name))
    ensures Substitute(content, vars, values) == content
    decreases |vars|
  {
    if |vars| > 0 {
      var last := vars[|vars| - 1];
      assert forall v :: v in vars[..|vars| - 1] ==> v in vars;
      AbsentPlaceholdersNoChange(content, vars[..|vars| - 1], values);
      ReplaceAllAbsent(content, Placeholder(last.name), ResolveValue(values, last));
    }
  }

  /**
   * One variable: the result is the content cut at every occurrence of the
   * placeholder, with the value in every cut; no piece still holds the placeholder.
   */
  lemma OneVariableReplacesEveryOccurrence(content: string, v: TemplateVariable, values: map<string, string>)
    ensures Substitute(content, [v], values) ==
      Join(Split(content, Placeholder(v.name)), ResolveValue(values, v))
    ensures forall k :: 0 <= k < |Split(content, Placeholder(v.name))| ==>
      !Contains(Split(content, Placeholder(v.name))[k], Placeholder(v.name))
  {
    assert [v][..0] == [];
    ReplaceAllIsSplitJoin(content, Placeholder(v.name), ResolveValue(values, v));
    forall k | 0 <= k < |Split(content, Placeholder(v.name))|
      ensures !Contains(Split(content, Placeholder(v.name))[k], Placeholder(v.name))
    {
      SplitPiecesAvoidSeparator(content, Placeholder(v.name), k);
    }
  }

  /**
   * Declaration order matters: when the first variable's value is the second
   * variable's placeholder, the second substitution rewrites it too.
   */
  lemma EarlierValueIsSubstitutedAgain(a: TemplateVariable, b: TemplateVariable, values: map<string, string>)
    requires ResolveValue(values, a) == Placeholder(b.name)
    ensures Substitute(Placeholder(a.name), [a, b], values) == ResolveValue(values, b)
  {
    var vars := [a, b];
    assert vars[..2] == vars && vars[..0] == [];
    SubstituteStep(Placeholder(a.name), vars, 0, values);
    ReplaceAllWhole(Placeholder(a.name), Placeholder(b.name));
    assert Substitute(Placeholder(a.name), vars[..1], values) == Placeholder(b.name);
    SubstituteStep(Placeholder(a.name), vars, 1, values);
    ReplaceAllWhole(Placeholder(b.name), ResolveValue(values, b));
  }

  /** With no value and no default, `{{client}}` renders as `[CLIENT]`. */
  lemma FallbackExample()
    ensures Substitute("{{client}}", [TemplateVariable("1", "client", TextVar, true, None, None)], map[]) == "[CLIENT]"
  {
    var v := TemplateVariable("1", "client", TextVar, true, None, None);
    assert [v][..0] == [];
    assert Placeholder("client") == "{{client}}";
    var up := ToUpper("client");
    assert up[0] == 'C' && up[1] == 'L' && up[2] == 'I' && up[3] == 'E' && up[4] == 'N' && up[5] == 'T';
    assert up == "CLIENT";
    ReplaceAllWhole("{{client}}", ResolveValue(map[], v));
  }

  /** An empty caller value counts as no value at all: the default, or else the fallback, is used. */
  lemma EmptyValueCountsAsMissing(v: TemplateVariable, values: map<string, string>)
    requires v.name in values && values[v.name] == ""
    ensures ResolveValue(values, v) == ResolveValue(values - {v.name}, v)
    ensures ResolveValue(values, v) == (if Truthy(v.defaultValue) then v.defaultValue.value else Fallback(v.name))
  {
  }

  // ---------------------------------------------------------------------------
  // Records

  /** `createTemplate`: an unauthenticated caller is refused; otherwise the new record. */
  function CreateTemplateRecord(id: string, user: Option<string>, data: CreateTemplateData): (r: Result<NewTemplate>)
    ensures user.None? <==> r.Failure?
    ensures r.Failure? ==> r.error == "User not authenticated"
    ensures r.Success? ==> r.value.usage_count == 0 && r.value.created_by == user.value && r.value.id == id
  {
    if user.None? then Failure("User not authenticated")
    else Success(NewTemplate(id, data.name, data.description, data.category, data.tags, data.content,
                             data.variables, 0, data.isPublic, user.value))
  }

  /** The row the store holds after inserting a new record at time `now`. */
  function StoredRow(t: NewTemplate, now: string): TemplateRow
  {
    TemplateRow(t.id, t.name, t.description, t.category, Some(t.tags), t.content, Some(t.variables),
                t.usage_count, t.is_public, t.created_by, now, now)
  }

  /** `mapToTemplateData`: null tags and variables become empty lists. */
  function MapToTemplateData(row: TemplateRow): (t: TemplateData)
    ensures t.tags == (if row.tags.Some? then row.tags.value else [])
    ensures t.variables == (if row.variables.Some? then row.variables.value else [])
    ensures t.usageCount == row.usage_count && t.isPublic == row.is_public
  {
    TemplateData(row.id, row.name, row.description, row.category, row.tags.GetOr([]), row.content,
                 row.variables.GetOr([]), row.usage_count, row.is_public, row.created_by,
                 row.created_at, row.updated_at)
  }

  /** A created template reads back with the caller's fields, unused, owned by the caller. */
  lemma CreatedTemplateReadsBack(id: string, user: string, data: CreateTemplateData, now: string)
    ensures CreateTemplateRecord(id, Some(user), data).Success?
    ensures var t := MapToTemplateData(StoredRow(CreateTemplateRecord(id, Some(user), data).value, now));
      t.name == data.name && t.description == data.description && t.category == data.category &&
      t.tags == data.tags && t.content == data.content && t.variables == data.variables &&
      t.isPublic == data.isPublic && t.usageCount == 0 && t.createdBy == user && t.id == id
  {
  }

  /** `duplicateTemplate`'s data: the new name or "<name> (Copy)", private, the rest copied. */
  function DuplicateData(t: TemplateData, newName: Option<string>): (d: CreateTemplateData)
    ensures d.isPublic == false
    ensures d.name == (if Truthy(newName) then newName.value else t.name + " (Copy)")
  {
    CreateTemplateData(
      if Truthy(newName) then newName.value else t.name + " (Copy)",
      t.description, t.category, t.tags, t.content, t.variables, false)
  }

  /** `duplicateTemplate`: a missing original throws; otherwise it creates the copy. */
  function DuplicateTemplate(found: Option<TemplateData>, newName: Option<string>, id: string, user: Option<string>)
    : (r: Result<NewTemplate>)
    ensures found.None? ==> r == Failure("Template not found")
    ensures found.Some? ==> r == CreateTemplateRecord(id, user, DuplicateData(found.value, newName))
  {
    if found.None? then Failure("Template not found")
    else CreateTemplateRecord(id, user, DuplicateData(found.value, newName))
  }

  /**
   * A copy renders exactly like the original for every set of values, but it is
   * private, unused and owned by whoever duplicated it.
   */
  lemma DuplicateRendersLikeOriginal(t: TemplateData, newName: Option<string>, id: string, user: string,
                                     now: string, values: map<string, string>)
    ensures DuplicateTemplate(Some(t), newName, id, Some(user)).Success?
    ensures var copy := MapToTemplateData(StoredRow(DuplicateTemplate(Some(t), newName, id, Some(user)).value, now));
      Substitute(copy.content, copy.variables, values) == Substitute(t.content, t.variables, values) &&
      copy.description == t.description && copy.category == t.category && copy.tags == t.tags &&
      !copy.isPublic && copy.usageCount == 0 && copy.createdBy == user
  {
  }

  /** Without a usable new name, the copy's name ends in " (Copy)". */
  lemma DuplicateNameSuffix(t: TemplateData, newName: Option<string>)
    requires !Truthy(newName)
    ensures StartsWith(DuplicateData(t, newName).name, t.name)
    ensures DuplicateData(t, newName).name[|t.name|..] == " (Copy)"
  {
  }

  /** Field by field, what `updateTemplate` writes. */
  function WhenTruthy(s: Option<string>): (w: Option<string>)
    ensures w.Some? <==> Truthy(s)
    ensures w.Some? ==> w == s
  {
    if Truthy(s) then s else None
  }

  /**
   * `updateTemplate`'s `updateData`: the timestamp always; name, description,
   * category and content only when non-empty; tags and variables whenever given
   * (an array, even an empty one, is truthy); `isPublic` whenever defined.
   */
  method BuildTemplateUpdate(updates: TemplatePatch, now: string) returns (u: TemplateUpdate)
    ensures u.updated_at == now
    ensures u.name == WhenTruthy(updates.name) && u.description == WhenTruthy(updates.description)
    ensures u.category == WhenTruthy(updates.category) && u.content == WhenTruthy(updates.content)
    ensures u.tags == updates.tags && u.variables == updates.variables
    ensures u.is_public == updates.isPublic
  {
    u := TemplateUpdate(now, None, None, None, None, None, None, None);
    if Truthy(updates.name) { u := u.(name := updates.name); }
    if Truthy(updates.description) { u := u.(description := updates.description); }
    if Truthy(updates.category) { u := u.(category := updates.category); }
    if updates.tags.Some? { u := u.(tags := updates.tags); }
    if Truthy(updates.content) { u := u.(content := updates.content); }
    if updates.variables.Some? { u := u.(variables := updates.variables); }
    if updates.isPublic.Some? { u := u.(is_public := updates.isPublic); }
  }

  /** The row after the store applies an update: written fields replace, the rest stay. */
  function ApplyTemplateUpdate(row: TemplateRow, u: TemplateUpdate): TemplateRow
  {
    row.(
      updated_at := u.updated_at,
      name := u.name.GetOr(row.name),
      description := u.description.GetOr(row.description),
      category := u.category.GetOr(row.category),
      tags := if u.tags.Some? then u.tags else row.tags,
      content := u.content.GetOr(row.content),
      variables := if u.variables.Some? then u.variables else row.variables,
      is_public := u.is_public.GetOr(row.is_public))
  }

  /**
   * An update never erases a stored value with an empty string, can make a
   * template private, and leaves the owner, the creation time and the usage
   * count alone.
   */
  lemma UpdateKeepsUnwrittenFields(row: TemplateRow, updates: TemplatePatch, u: TemplateUpdate)
    requires u.name == WhenTruthy(updates.name) && u.content == WhenTruthy(updates.content)
    requires u.is_public == updates.isPublic
    ensures var after := ApplyTemplateUpdate(row, u);
      (updates.name == Some("") ==> after.name == row.name) &&
      (updates.content == Some("") ==> after.content == row.content) &&
      (updates.isPublic == Some(false) ==> !after.is_public) &&
      after.created_by == row.created_by && after.created_at == row.created_at &&
      after.usage_count == row.usage_count && after.id == row.id
  {
  }

  /** Applying the same update twice is the same as applying it once. */
  lemma UpdateIdempotent(row: TemplateRow, u: TemplateUpdate)
    ensures ApplyTemplateUpdate(ApplyTemplateUpdate(row, u), u) == ApplyTemplateUpdate(row, u)
  {
  }
}
