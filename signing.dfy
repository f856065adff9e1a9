/** Request signing as the Remember The Milk authentication scheme defines
    it and rtm-glib.c implements it: the shared secret, then every parameter
    as its key immediately followed by its value, keys in ascending
    `g_strcmp0` order, no separators. The MD5 digest of that string is the
    `api_sig` parameter. */
module Signing {
  import opened GlibStrings

  /** The parameters of one call: a `GHashTable` from names to values. */
  type Params = map<string, string>

  /** Every key is a member of the set. */
  lemma AscendingMembers(s: set<string>)
    ensures forall k | k in Ascending(s) :: k in s
  {
    AscendingSortedPermutation(s);
    forall k | k in Ascending(s) ensures k in s {
      assert k in multiset(Ascending(s));
    }
  }

  /** Each key of `keys` followed by its value, in the order of `keys`. */
  function Concatenation(keys: seq<string>, params: Params): string
    requires forall k | k in keys :: k in params
  {
    if keys == [] then ""
    else
      var last := keys[|keys| - 1];
      Concatenation(keys[..|keys| - 1], params) + last + params[last]
  }

  /** The string whose digest signs `params`. It is a function of the map
      alone: nothing about the order the parameters were added in enters. */
  ghost function SigningString(secret: string, params: Params): string
  {
    AscendingMembers(params.Keys);
    secret + Concatenation(Ascending(params.Keys), params)
  }

  /** `params` with its `api_sig` added: the digest of the signing string of
      `params` as they stood before. */
  ghost function Signed(secret: string, checksum: string -> string, params: Params): Params
  {
    params["api_sig" := checksum(SigningString(secret, params))]
  }

  /** What `rtm_glib_call_method` puts into a call before signing it: the
      method name, the API key, then the call's own parameters. */
  function Request(methodName: string, apiKey: string, args: Params): (r: Params)
    ensures r.Keys == {"method", "api_key"} + args.Keys
  {
    map["method" := methodName, "api_key" := apiKey] + args
  }

  /** A signed call carries exactly the method, the API key, the call's own
      parameters and `api_sig`, and the signature covers all of them but
      itself. */
  lemma SignedRequestShape(secret: string, checksum: string -> string, methodName: string, apiKey: string, args: Params)
    requires "method" !in args && "api_key" !in args && "api_sig" !in args
    ensures Signed(secret, checksum, Request(methodName, apiKey, args)).Keys
         == {"method", "api_key", "api_sig"} + args.Keys
    ensures "api_sig" !in Request(methodName, apiKey, args)
    ensures Signed(secret, checksum, Request(methodName, apiKey, args))["method"] == methodName
    ensures Signed(secret, checksum, Request(methodName, apiKey, args))["api_key"] == apiKey
    ensures forall k | k in args :: Signed(secret, checksum, Request(methodName, apiKey, args))[k] == args[k]
    ensures Signed(secret, checksum, Request(methodName, apiKey, args))["api_sig"]
         == checksum(SigningString(secret, Request(methodName, apiKey, args)))
  {
  }

  /** The keys of a sorted enumeration are the set's ascending order. */
  lemma AscendingOf(keys: seq<string>, s: set<string>)
    requires Sorted(keys) && multiset(keys) == multiset(s)
    ensures Ascending(s) == keys
  {
    AscendingSortedPermutation(s);
    SortedUnique(keys, Ascending(s));
  }

  /** Three keys, each followed by its value. */
  lemma ConcatenationOfThree(a: string, b: string, c: string, params: Params)
    requires a in params && b in params && c in params
    ensures Concatenation([a, b, c], params) == a + params[a] + b + params[b] + c + params[c]
  {
    assert [a, b, c][..2] == [a, b] && [a, b][..1] == [a] && [a][..0] == [];
    assert Concatenation([a], params) == a + params[a];
    assert Concatenation([a, b], params) == Concatenation([a], params) + b + params[b];
    assert Concatenation([a, b, c], params) == Concatenation([a, b], params) + c + params[c];
  }

  /** The keys the login URL signs, in ascending order. */
  lemma LoginKeysAscending(params: Params)
    requires params.Keys == {"api_key", "perms", "frob"}
    ensures Ascending(params.Keys) == ["api_key", "frob", "perms"]
  {
    var keys := ["api_key", "frob", "perms"];
    assert Compare("api_key", "frob") < 0;
    assert Compare("frob", "perms") < 0;
    assert Compare("api_key", "perms") < 0;
    assert Sorted(keys);
    assert multiset(keys) == multiset(params.Keys);
    AscendingOf(keys, params.Keys);
  }

  /** The signing string of a map whose keys sort as `a`, `b`, `c`. */
  lemma SigningStringOfThree(secret: string, params: Params, a: string, b: string, c: string)
    requires a in params && b in params && c in params
    requires Ascending(params.Keys) == [a, b, c]
    ensures SigningString(secret, params) == secret + a + params[a] + b + params[b] + c + params[c]
  {
    ConcatenationOfThree(a, b, c, params);
  }

  /** The signing string of the login URL: "api_key" sorts before "frob",
      which sorts before "perms". */
  lemma LoginSigningString(secret: string, apiKey: string, frob: string)
    ensures SigningString(secret, map["api_key" := apiKey, "perms" := "delete", "frob" := frob])
         == secret + "api_key" + apiKey + "frob" + frob + "perms" + "delete"
  {
    var params := map["api_key" := apiKey, "perms" := "delete", "frob" := frob];
    assert params.Keys == {"api_key", "perms", "frob"};
    LoginKeysAscending(params);
    SigningStringOfThree(secret, params, "api_key", "frob", "perms");
  }

  /** The signing string has no separators, so two different parameter maps
      can share it, and with it their signature. */
  lemma SigningStringAmbiguous(secret: string)
    ensures map["a" := "bc"] != map["ab" := "c"]
    ensures SigningString(secret, map["a" := "bc"]) == SigningString(secret, map["ab" := "c"])
  {
    AscendingOf(["a"], map["a" := "bc"].Keys);
    AscendingOf(["ab"], map["ab" := "c"].Keys);
    assert ["a"][..0] == [] && ["ab"][..0] == [];
    assert map["a" := "bc"]["a"] == "bc";
  }
}
