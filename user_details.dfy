/** The user object that the login flows hand to the session store: a JavaScript object
    whose members are the UserDetails fields, plus the `role` and `address` members the
    application also reads and writes. A member is either absent, a string or a boolean. */
module UserDetails {
  import opened Common

  datatype UserField = Id | Name | Email | Phone | DateOfBirth | Token | IsNew | Role | Address

  datatype Value = Text(text: string) | Flag(flag: bool)

  type User = map<UserField, Value>

  /** Every member, in the fixed order the storage encoding writes them. */
  const AllFields: seq<UserField> := [Id, Name, Email, Phone, DateOfBirth, Token, IsNew, Role, Address]

  lemma AllFieldsComplete(f: UserField)
    ensures f in AllFields
  {
  }

  /** JavaScript truthiness of a present member. */
  predicate Truthy(v: Value) {
    match v
    case Text(s) => s != ""
    case Flag(b) => b
  }

  /** What a present member turns into when JavaScript converts it to a string. */
  function ValueString(v: Value): string {
    match v
    case Text(s) => s
    case Flag(b) => if b then "true" else "false"
  }

  /** `${u.f}`: the member as a string, "undefined" when it is absent. */
  function MemberString(u: User, f: UserField): string {
    if f in u then ValueString(u[f]) else "undefined"
  }

  /** The object spread `{ ...u, ...patch }`: the patch's members win. */
  function Spread(u: User, patch: User): (r: User)
    ensures r.Keys == u.Keys + patch.Keys
    ensures forall f :: f in patch ==> r[f] == patch[f]
    ensures forall f :: f in u && f !in patch ==> r[f] == u[f]
  {
    u + patch
  }
}
