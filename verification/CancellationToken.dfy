/** The operations run alone, updating flags and handler lists in place: the sequential counterpart of
    the interleaved steps. Tokens are indices into the lists. */
module TokenForests {

  ghost predicate LinksUp(handlers: seq<seq<nat>>) {
    forall p, i :: 0 <= p < |handlers| && 0 <= i < |handlers[p]| ==> p < handlers[p][i] < |handlers|
  }

  /** `t` is `a` or is linked to it, directly or through tokens in between, all of them still owned. */
  ghost predicate Reaches(handlers: seq<seq<nat>>, dropped: set<nat>, a: nat, t: nat)
    requires LinksUp(handlers) && a < |handlers|
    decreases |handlers| - a
  {
    a == t || ReachesVia(handlers, dropped, a, |handlers[a]|, t)
  }

  /** `t` is reached through one of the first `n` tokens linked to `a`. */
  ghost predicate ReachesVia(handlers: seq<seq<nat>>, dropped: set<nat>, a: nat, n: nat, t: nat)
    requires LinksUp(handlers) && a < |handlers| && n <= |handlers[a]|
    decreases |handlers| - a, 0, n
  {
    n > 0 &&
    (|| ReachesVia(handlers, dropped, a, n - 1, t)
     || (handlers[a][n - 1] !in dropped && Reaches(handlers, dropped, handlers[a][n - 1], t)))
  }

  class TokenForest {
    var flags: seq<bool>
    var handlers: seq<seq<nat>>
    /** Tokens whose last owner is gone: the weak reference in their source's handler fails. */
    var dropped: set<nat>

    ghost predicate Valid()
      reads this
    {
      |flags| == |handlers| && LinksUp(handlers) && forall t :: t in dropped ==> t < |flags|
    }

    constructor ()
      ensures Valid() && flags == [] && dropped == {}
    {
      flags, handlers, dropped := [], [], {};
    }

    method New() returns (token: nat)
      requires Valid()
      modifies this`flags, this`handlers
      ensures Valid() && token == |old(flags)|
      ensures flags == old(flags) + [false] && handlers == old(handlers) + [[]]
    {
      token := |flags|;
      flags, handlers := flags + [false], handlers + [[]];
    }

    method Drop(token: nat)
      requires Valid() && token < |flags|
      modifies this`dropped
      ensures Valid() && dropped == old(dropped) + {token}
    {
      dropped := dropped + {token};
    }

    /** Cancels the token and everything linked below it over owned tokens, and nothing else. */
    method Cancel(token: nat)
      requires Valid() && token < |flags|
      modifies this`flags
      ensures Valid() && |flags| == |old(flags)|
      ensures forall t: nat :: t < |flags| ==> (flags[t] <==> old(flags)[t] || Reaches(handlers, dropped, token, t))
      decreases |handlers| - token
    {
      flags := flags[token := true];
      for i := 0 to |handlers[token]|
        invariant Valid() && |flags| == |old(flags)|
        invariant forall t: nat :: t < |flags| ==>
          (flags[t] <==> old(flags)[t] || t == token || ReachesVia(handlers, dropped, token, i, t))
      {
        if handlers[token][i] !in dropped {
          Cancel(handlers[token][i]);
        }
      }
    }

    /** The new token starts out cancelled exactly when its source is. */
    method CreateLinkedToken(source: nat) returns (token: nat)
      requires Valid() && source < |flags|
      modifies this`flags, this`handlers
      ensures Valid() && token == |old(flags)|
      ensures flags == old(flags) + [old(flags)[source]]
      ensures handlers == old(handlers)[source := old(handlers)[source] + [token]] + [[]]
      ensures Reaches(handlers, dropped, source, token)
    {
      token := New();
      handlers := handlers[source := handlers[source] + [token]];
      assert ReachesVia(handlers, dropped, source, |handlers[source]|, token);
      if flags[source] {
        Cancel(token);
      }
      assert forall t :: 0 <= t < |flags| - 1 ==> !Reaches(handlers, dropped, token, t);
    }
  }
}
