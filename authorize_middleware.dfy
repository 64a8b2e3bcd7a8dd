/** The role gate. It is built from `permittedRoles` and lets a request
    through when `permittedRoles.includes(role)`. Built from an array, that
    is list membership; built from a string, as the product route does with
    "seller", it is substring containment, and a missing role is searched for
    as the text "undefined". */
module AuthorizeMiddleware {
  import opened Http
  import opened Js

  /** What the gate is built from. */
  datatype Permitted = Text(text: string) | Roles(roles: seq<string>)

  /** The text a role is converted to when searched for in a string. */
  function RoleText(role: Option<string>): string {
    if role.Some? then role.value else "undefined"
  }

  /** `permittedRoles.includes(role)`. */
  predicate Accepts(permitted: Permitted, role: Option<string>) {
    match permitted
    case Text(text) => Includes(text, RoleText(role))
    case Roles(roles) => role.Some? && role.value in roles
  }

  /** What the gate does: call next, or reply 401. */
  datatype Gate = Next | Reject(status: Status, message: string)

  const RejectMessage: string := "Unauthorized - Only Sellers Can Add Products"

  /** The gate's decision; the request itself is never changed. */
  function Authorize(permitted: Permitted, role: Option<string>): (g: Gate)
    ensures g == Next <==> Accepts(permitted, role)
    ensures g != Next ==> g == Reject(Unauthorized, RejectMessage)
  {
    if Accepts(permitted, role) then Next else Reject(Unauthorized, RejectMessage)
  }

  /** The gate as the product-creation route builds it: from the string "seller". */
  const ProductGate: Permitted := Text("seller")

  /** The gate the route evidently means: a list holding the one role "seller". */
  const IntendedProductGate: Permitted := Roles(["seller"])

  /** Built from a string, the gate admits exactly the roles that occur
      inside that string. */
  lemma TextGateIsSubstring(text: string, role: string)
    ensures Authorize(Text(text), Some(role)) == Next <==> exists i :: OccursAt(text, role, i)
  {
    IncludesIffOccurs(text, role);
  }

  /** "seller" passes the product gate and "user" does not. */
  lemma SellerPassesUserRejected()
    ensures Authorize(ProductGate, Some("seller")) == Next
    ensures Authorize(ProductGate, Some("user")) == Reject(Unauthorized, RejectMessage)
  {
    var s := "seller";
    assert s[..6] == "seller";
    assert s[..4] != "user" by { assert s[0] != 'u'; }
    assert s[1..][..4] != "user" by { assert s[1] != 'u'; }
    assert s[2..][..4] != "user" by { assert s[2] != 'u'; }
    assert s[3..] == "ler";
  }

  /** As written, the empty role and any fragment of "seller" also pass,
      while a missing role is rejected. */
  lemma FragmentRolePasses()
    ensures Authorize(ProductGate, Some("")) == Next
    ensures Authorize(ProductGate, Some("sell")) == Next
    ensures Authorize(ProductGate, Some("ell")) == Next
    ensures Authorize(ProductGate, None) == Reject(Unauthorized, RejectMessage)
  {
    var s := "seller";
    assert s[..0] == "";
    assert s[..4] == "sell";
    assert s[..3] != "ell" by { assert s[0] != 'e'; }
    assert s[1..][..3] == "ell";
    assert |"undefined"| > |s|;
  }

  /** Built from a list holding "seller", the gate admits that role and no other. */
  lemma ListGateIsExact(role: Option<string>)
    ensures Authorize(IntendedProductGate, role) == Next <==> role == Some("seller")
  {
  }
}
