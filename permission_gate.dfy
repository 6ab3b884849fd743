/**
 * The access guard of src/components/PermissionGate.tsx. The guard checks, in
 * this order, a resource-and-action pair, a feature, a role; with none of
 * them it grants. Rendering is a choice between the children and the
 * fallback (nothing, by default).
 */
module PermissionGate {
  import opened Wrappers
  import opened UsePermissions
  import P = Permissions

  /** The optional props; an absent or empty string is falsy, as in JavaScript. */
  datatype GateProps = GateProps(
    resource: Option<string>,
    action: Option<string>,
    feature: Option<string>,
    role: Option<string>)

  predicate Truthy(o: Option<string>) {
    o.Some? && o.value != ""
  }

  /** Both halves of the resource-and-action pair are given. */
  predicate HasPair(g: GateProps) {
    Truthy(g.resource) && Truthy(g.action)
  }

  /** The access decision; it denies only when some discriminant was given and failed. */
  function HasAccess(acc: Accessor, g: GateProps): (granted: bool)
    ensures !granted ==> HasPair(g) || Truthy(g.feature) || Truthy(g.role)
  {
    if HasPair(g) then acc.HasPermission(g.resource.value, g.action.value)
    else if Truthy(g.feature) then acc.HasFeature(g.feature.value)
    else if Truthy(g.role) then acc.role == g.role.value
    else true
  }

  /** The rendered output: the children when granted, else the fallback (`None`: nothing). */
  function Render<T>(acc: Accessor, g: GateProps, children: T, fallback: Option<T>): (out: Option<T>)
    ensures HasAccess(acc, g) ==> out == Some(children)
    ensures !HasAccess(acc, g) ==> out == fallback
  {
    if HasAccess(acc, g) then Some(children) else fallback
  }

  // ---------------------------------------------------------------------------

  /** With no pair, no feature and no role, the children render, whatever the role. */
  lemma NoDiscriminantGrants<T>(acc: Accessor, g: GateProps, children: T, fallback: Option<T>)
    requires !HasPair(g) && !Truthy(g.feature) && !Truthy(g.role)
    ensures HasAccess(acc, g)
    ensures Render(acc, g, children, fallback) == Some(children)
  {
  }

  /** A full pair decides alone: feature and role are ignored. */
  lemma PairDecides(acc: Accessor, g: GateProps, feature: Option<string>, role: Option<string>)
    requires HasPair(g)
    ensures HasAccess(acc, g) == acc.HasPermission(g.resource.value, g.action.value)
    ensures HasAccess(acc, g) == HasAccess(acc, g.(feature := feature, role := role))
  {
  }

  /** Without a full pair, a feature decides alone: the role is ignored. */
  lemma FeatureDecides(acc: Accessor, g: GateProps, role: Option<string>)
    requires !HasPair(g) && Truthy(g.feature)
    ensures HasAccess(acc, g) == acc.HasFeature(g.feature.value)
    ensures HasAccess(acc, g) == HasAccess(acc, g.(role := role))
  {
  }

  /** Without a pair or a feature, the role grants exactly the bound role. */
  lemma RoleDecides(acc: Accessor, g: GateProps)
    requires !HasPair(g) && !Truthy(g.feature) && Truthy(g.role)
    ensures HasAccess(acc, g) <==> acc.role == g.role.value
  {
  }

  /** Half a pair is no discriminant: the decision is as if neither half were given. */
  lemma HalfPairFallsThrough(acc: Accessor, g: GateProps)
    requires !HasPair(g)
    ensures HasAccess(acc, g) == HasAccess(acc, g.(resource := None, action := None))
  {
  }

  /** A gate on templates/create shows the fallback to a client and the children to the team. */
  lemma TemplateCreateGate<T>(children: T, fallback: Option<T>)
    ensures var g := GateProps(Some("templates"), Some("create"), None, None);
      && Render(Accessor("client"), g, children, fallback) == fallback
      && Render(Accessor("team"), g, children, fallback) == Some(children)
  {
    P.RoleEntry("client", 2);
    P.RoleEntry("team", 4);
  }
}
