/** The order history view: resolving the caller's role from the session
    token, and the admin-only status control. */
module OrderHistory {
  import opened Common
  import opened Records

  // ---------------------------------------------------------------------------
  // Splitting a token on '.'
  // ---------------------------------------------------------------------------

  function DotCount(s: string): nat {
    if s == "" then 0 else (if s[0] == '.' then 1 else 0) + DotCount(s[1..])
  }

  predicate NoDot(s: string) {
    forall k :: 0 <= k < |s| ==> s[k] != '.'
  }

  /** `s.split(".")`: the maximal dot-free pieces, so "" gives [""] and every
      dot starts a new piece. */
  function Split(s: string): (parts: seq<string>)
    ensures |parts| >= 1
    decreases |s|
  {
    if s == "" then [""]
    else
      var rest := Split(s[1..]);
      if s[0] == '.' then [""] + rest else [[s[0]] + rest[0]] + rest[1..]
  }

  /** `parts.join(".")`. */
  function Join(parts: seq<string>): string
    requires |parts| >= 1
  {
    if |parts| == 1 then parts[0] else parts[0] + "." + Join(parts[1..])
  }

  /** There is one more piece than there are dots, and no piece holds a dot. */
  lemma {:induction false} SplitShape(s: string)
    ensures |Split(s)| == DotCount(s) + 1
    ensures forall k :: 0 <= k < |Split(s)| ==> NoDot(Split(s)[k])
    decreases |s|
  {
    if s != "" {
      SplitShape(s[1..]);
      var rest := Split(s[1..]);
      if s[0] != '.' {
        var head := [s[0]] + rest[0];
        assert NoDot(head) by {
          forall k | 0 <= k < |head| ensures head[k] != '.' {
            if k > 0 { assert head[k] == rest[0][k - 1]; }
          }
        }
        assert forall k :: 1 <= k < |Split(s)| ==> Split(s)[k] == rest[k];
      } else {
        assert forall k :: 1 <= k < |Split(s)| ==> Split(s)[k] == rest[k - 1];
      }
    }
  }

  /** Joining the pieces back with '.' gives the token again. */
  lemma {:induction false} JoinSplit(s: string)
    ensures Join(Split(s)) == s
    decreases |s|
  {
    if s != "" {
      JoinSplit(s[1..]);
      var rest := Split(s[1..]);
      if s[0] == '.' {
        assert Split(s)[1..] == rest;
        assert s == "." + s[1..];
      } else if |rest| == 1 {
        assert s == [s[0]] + s[1..];
      } else {
        assert Split(s)[1..] == rest[1..];
        assert Join(rest) == rest[0] + "." + Join(rest[1..]);
        assert s == [s[0]] + s[1..];
      }
    }
  }

  lemma {:induction false} SplitPrefix(c: char, s: string)
    requires c != '.'
    ensures Split([c] + s) == [[c] + Split(s)[0]] + Split(s)[1..]
  {
    assert ([c] + s)[1..] == s;
  }

  /** Splitting pieces joined with '.' gives the pieces back, provided they hold
      no dot of their own. */
  lemma {:induction false} SplitJoin(parts: seq<string>)
    requires |parts| >= 1
    requires forall k :: 0 <= k < |parts| ==> NoDot(parts[k])
    ensures Split(Join(parts)) == parts
    decreases |parts|, |parts[0]|
  {
    var p := parts[0];
    if p == "" {
      if |parts| > 1 {
        SplitJoin(parts[1..]);
        assert Join(parts) == "." + Join(parts[1..]);
        assert ("." + Join(parts[1..]))[1..] == Join(parts[1..]);
      }
    } else {
      var shorter := [p[1..]] + parts[1..];
      assert NoDot(p[1..]) by {
        forall k | 0 <= k < |p[1..]| ensures p[1..][k] != '.' { assert p[1..][k] == p[k + 1]; }
      }
      assert forall k :: 1 <= k < |shorter| ==> shorter[k] == parts[k];
      SplitJoin(shorter);
      assert Join(parts) == [p[0]] + Join(shorter) by {
        if |parts| > 1 {
          assert p == [p[0]] + p[1..];
        } else {
          assert p == [p[0]] + p[1..];
        }
      }
      assert p[0] != '.';
      SplitPrefix(p[0], Join(shorter));
      assert [p[0]] + p[1..] == p;
      assert shorter[1..] == parts[1..];
    }
  }

  // ---------------------------------------------------------------------------
  // Role resolution
  // ---------------------------------------------------------------------------

  /** The result of decoding a token's middle segment (base64 text, then a
      JSON value): an object with perhaps a `role`, or some other value. */
  datatype Payload = NotAnObject | Claims(role: Option<string>)

  /** The decoder is left abstract and partial: None means `atob` or
      `JSON.parse` threw. */
  type Decoder = string -> Option<Payload>

  /** `getRoleFromToken`: no token, a token that does not split into exactly
      three pieces, a middle piece that does not decode, or a payload without
      a truthy `role` all give no role; otherwise the claimed role. Nothing
      here can fail. */
  function RoleFromToken(token: Option<string>, decode: Decoder): (r: Option<string>)
    ensures !Truthy(token) ==> r.None?
    ensures Truthy(token) && DotCount(token.value) != 2 ==> r.None?
    ensures r.Some? ==> r.value != "" && Truthy(token) && DotCount(token.value) == 2
    ensures r.Some? ==> |Split(token.value)| == 3 && decode(Split(token.value)[1]) == Some(Claims(r))
    ensures Truthy(token) && |Split(token.value)| == 3 ==>
              match decode(Split(token.value)[1])
              case Some(Claims(role)) => r == (if Truthy(role) then role else None)
              case _ => r.None?
  {
    if !Truthy(token) then None
    else
      var parts := Split(token.value);
      SplitShape(token.value);
      if |parts| != 3 then None
      else match decode(parts[1])
        case None => None
        case Some(NotAnObject) => None
        case Some(Claims(role)) => if Truthy(role) then role else None
  }

  /** `role === "admin"`. */
  predicate IsAdminRole(role: Option<string>)
    ensures IsAdminRole(role) ==> Truthy(role)
    ensures role.None? ==> !IsAdminRole(role)
  {
    role == Some("admin")
  }

  /** Only a three-piece token whose middle piece decodes to a payload claiming
      "admin" unlocks the admin controls. */
  lemma AdminNeedsWellFormedToken(token: Option<string>, decode: Decoder)
    requires IsAdminRole(RoleFromToken(token, decode))
    ensures token.Some? && |Split(token.value)| == 3
    ensures decode(Split(token.value)[1]) == Some(Claims(Some("admin")))
  {
    SplitShape(token.value);
  }

  /** A token in compact form: header, payload and signature joined by dots. */
  lemma CompactTokenRole(header: string, payload: string, signature: string, decode: Decoder)
    requires NoDot(header) && NoDot(payload) && NoDot(signature)
    ensures var token := header + "." + payload + "." + signature;
            RoleFromToken(Some(token), decode) ==
              match decode(payload)
              case Some(Claims(role)) => if Truthy(role) then role else None
              case _ => None
  {
    var parts := [header, payload, signature];
    SplitJoin(parts);
    assert Join(parts) == header + "." + payload + "." + signature by {
      assert Join(parts[2..]) == signature;
      assert Join(parts[1..]) == payload + "." + signature;
    }
  }

  // ---------------------------------------------------------------------------
  // The view
  // ---------------------------------------------------------------------------

  class OrdersView {
    var orders: seq<Order>
    var loading: bool
    var isAdmin: bool
    var updatingId: Option<string>

    constructor ()
      ensures orders == [] && loading && !isAdmin && updatingId == None
    {
      orders := [];
      loading := true;
      isAdmin := false;
      updatingId := None;
    }

    /** The fetch on mount: a reply sets the orders (`data.orders || []`) and
        re-derives the admin flag from the token; a failure changes neither. */
    method FetchOrders(token: Option<string>, decode: Decoder, reply: Response<Option<seq<Order>>>)
      modifies this`orders, this`loading, this`isAdmin
      ensures !loading
      ensures reply.Ok? ==> orders == reply.body.GetOr([]) && isAdmin == IsAdminRole(RoleFromToken(token, decode))
      ensures reply.Err? ==> orders == old(orders) && isAdmin == old(isAdmin)
    {
      loading := true;
      if reply.Ok? {
        orders := reply.body.GetOr([]);
        var role := RoleFromToken(token, decode);
        isAdmin := IsAdminRole(role);
      }
      loading := false;
    }

    /** The first half of `updateOrderStatus`: mark the order and send. */
    method BeginStatusUpdate(orderId: string, status: string) returns (req: StatusRequest)
      modifies this`updatingId
      ensures updatingId == Some(orderId) && req == StatusRequest(orderId, status)
    {
      updatingId := Some(orderId);
      req := StatusRequest(orderId, status);
    }

    /** The second half: after a successful update the list is fetched again and
        replaced by `data.orders || []`; any failure leaves it; the marker is
        cleared whatever happened. */
    method FinishStatusUpdate(put: Response<()>, refetch: Response<Option<seq<Order>>>) returns (refetchSent: bool)
      modifies this`orders, this`updatingId
      ensures updatingId == None
      ensures refetchSent == put.Ok?
      ensures put.Ok? && refetch.Ok? ==> orders == refetch.body.GetOr([])
      ensures put.Err? || refetch.Err? ==> orders == old(orders)
    {
      refetchSent := put.Ok?;
      if put.Ok? && refetch.Ok? {
        orders := refetch.body.GetOr([]);
      }
      updatingId := None;
    }
  }
}
