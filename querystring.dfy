/**
 * Node's `querystring.stringify` on an object of string values. The
 * percent-encoding of keys and values (`querystring.escape`) is a parameter:
 * its code is not part of this model, and what the registry needs of it is
 * stated as an explicit assumption, `SafeEscape`.
 */
module QueryString {
  import Strings

  /** The own enumerable properties of a `params` object, in enumeration order. */
  type Params = seq<(string, string)>

  ghost predicate Injective(escape: string -> string) {
    forall a, b :: escape(a) == escape(b) ==> a == b
  }

  /**
   * What percent-encoding guarantees: distinct strings encode differently,
   * and the separators '&' and '=' never survive encoding.
   */
  ghost predicate SafeEscape(escape: string -> string) {
    && Injective(escape)
    && (forall s :: '&' !in escape(s) && '=' !in escape(s))
  }

  /** One `key=value` field. */
  function Field(escape: string -> string, kv: (string, string)): string {
    escape(kv.0) + "=" + escape(kv.1)
  }

  /** The fields in the order given, joined with '&'. */
  function Stringify(escape: string -> string, params: Params): (r: string)
    ensures r == [] <==> params == []
  {
    if |params| == 0 then ""
    else if |params| == 1 then Field(escape, params[0])
    else Field(escape, params[0]) + "&" + Stringify(escape, params[1..])
  }

  /** Serialisation keeps the order of the parameters: it distributes over concatenation. */
  lemma {:induction false} StringifyAppend(escape: string -> string, ps: Params, qs: Params)
    requires ps != [] && qs != []
    ensures Stringify(escape, ps + qs) == Stringify(escape, ps) + "&" + Stringify(escape, qs)
  {
    assert (ps + qs)[0] == ps[0];
    if |ps| > 1 {
      assert (ps + qs)[1..] == ps[1..] + qs;
      StringifyAppend(escape, ps[1..], qs);
    } else {
      assert (ps + qs)[1..] == qs;
    }
  }

  lemma FieldInjective(escape: string -> string, kv1: (string, string), kv2: (string, string))
    requires SafeEscape(escape)
    requires Field(escape, kv1) == Field(escape, kv2)
    ensures kv1 == kv2
  {
    assert '=' !in escape(kv1.0) && '=' !in escape(kv2.0);
    assert Field(escape, kv1) == escape(kv1.0) + ("=" + escape(kv1.1));
    assert Field(escape, kv2) == escape(kv2.0) + ("=" + escape(kv2.1));
    Strings.SplitAtSeparator('=', escape(kv1.0), "=" + escape(kv1.1), escape(kv2.0), "=" + escape(kv2.1));
    Strings.CancelPrefix("=", escape(kv1.1), escape(kv2.1));
  }

  /** Under `SafeEscape`, distinct parameter lists serialise differently. */
  lemma {:induction false} StringifyInjective(escape: string -> string, p1: Params, p2: Params)
    requires SafeEscape(escape)
    requires Stringify(escape, p1) == Stringify(escape, p2)
    ensures p1 == p2
  {
    if |p1| > 0 && |p2| > 0 {
      var f1, f2 := Field(escape, p1[0]), Field(escape, p2[0]);
      var x1 := if |p1| == 1 then "" else "&" + Stringify(escape, p1[1..]);
      var x2 := if |p2| == 1 then "" else "&" + Stringify(escape, p2[1..]);
      assert Stringify(escape, p1) == f1 + x1;
      assert Stringify(escape, p2) == f2 + x2;
      assert '&' !in escape(p1[0].0) && '&' !in escape(p1[0].1);
      assert '&' !in escape(p2[0].0) && '&' !in escape(p2[0].1);
      Strings.SplitAtSeparator('&', f1, x1, f2, x2);
      FieldInjective(escape, p1[0], p2[0]);
      if |p1| > 1 && |p2| > 1 {
        Strings.CancelPrefix("&", Stringify(escape, p1[1..]), Stringify(escape, p2[1..]));
        StringifyInjective(escape, p1[1..], p2[1..]);
        assert p1 == [p1[0]] + p1[1..] && p2 == [p2[0]] + p2[1..];
      }
    }
  }
}
