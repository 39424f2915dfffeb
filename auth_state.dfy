/** The token registry of app/auth_state.py: a process-wide set of valid tokens. */
module AuthState {

  /** `VALID_TOKENS` with `add_token` and `is_token_valid`. */
  class TokenRegistry {
    var validTokens: set<string>

    constructor ()
      ensures validTokens == {}
    {
      validTokens := {};
    }

    /** `is_token_valid`: membership, reading the registry only. */
    function IsTokenValid(token: string): (r: bool)
      reads this
      ensures r <==> token in validTokens
    {
      token in validTokens
    }

    /** `add_token`: the token becomes valid; no other token's validity changes. */
    method AddToken(token: string)
      modifies this
      ensures validTokens == old(validTokens) + {token}
      ensures IsTokenValid(token)
      ensures forall t :: t != token ==> IsTokenValid(t) == old(IsTokenValid(t))
    {
      validTokens := validTokens + {token};
    }
  }

  /** Adding a token twice leaves the registry as adding it once does. */
  method AddTokenTwice(registry: TokenRegistry, token: string)
    modifies registry
    ensures registry.validTokens == old(registry.validTokens) + {token}
  {
    registry.AddToken(token);
    registry.AddToken(token);
  }

  /**
   * A token is valid after a series of additions exactly when it was valid
   * before or was one of those added.
   */
  function AfterAdding(tokens: set<string>, added: seq<string>): (r: set<string>)
    decreases |added|
  {
    if added == [] then tokens else AfterAdding(tokens, added[..|added| - 1]) + {added[|added| - 1]}
  }

  lemma {:induction false} ValidOnlyIfAdded(tokens: set<string>, added: seq<string>, token: string)
    ensures token in AfterAdding(tokens, added) <==> token in tokens || token in added
    decreases |added|
  {
    if added != [] {
      var p := added[..|added| - 1];
      ValidOnlyIfAdded(tokens, p, token);
      assert added == p + [added[|added| - 1]];
      assert token in added <==> token in p || token == added[|added| - 1];
    }
  }
}
