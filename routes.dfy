/**
 * The API route table shared by client and server, and buildUrl, which fills
 * the ":key" placeholders of a route path from a parameter object.
 */
module Routes {
  import opened Wrappers
  import opened Text

  datatype HttpMethod = Get | Post

  datatype Route = Route(httpMethod: HttpMethod, path: string)

  const ListRoute: Route := Route(Get, "/api/captures")
  const GetRoute: Route := Route(Get, "/api/captures/:id")
  const CreateRoute: Route := Route(Post, "/api/captures")

  /** A parameter value: a string or an (integer) number. */
  datatype ParamValue = Str(s: string) | Num(n: int)

  /** String(value). */
  function ValueString(v: ParamValue): (r: string)
    ensures v.Num? ==> '$' !in r
  {
    match v
    case Str(s) => s
    case Num(n) => NumberTextLiteral(n); IntToString(n)
  }

  /**
   * The replacement text String.prototype.replace inserts for a string
   * pattern: "$$" stands for "$", "$&" for the matched text, "$`" for the text
   * before the match and "$'" for the text after it; every other character,
   * including any other "$", stands for itself (a string pattern has no
   * capture groups).
   */
  function Expand(rep: string, matched: string, before: string, after: string): string
    decreases |rep|
  {
    if rep == [] then []
    else if |rep| >= 2 && rep[0] == '$' && rep[1] == '$' then "$" + Expand(rep[2..], matched, before, after)
    else if |rep| >= 2 && rep[0] == '$' && rep[1] == '&' then matched + Expand(rep[2..], matched, before, after)
    else if |rep| >= 2 && rep[0] == '$' && rep[1] == '`' then before + Expand(rep[2..], matched, before, after)
    else if |rep| >= 2 && rep[0] == '$' && rep[1] == '\'' then after + Expand(rep[2..], matched, before, after)
    else [rep[0]] + Expand(rep[1..], matched, before, after)
  }

  /** A replacement without '$' is inserted as it is. */
  lemma {:induction false} ExpandLiteral(rep: string, matched: string, before: string, after: string)
    requires '$' !in rep
    ensures Expand(rep, matched, before, after) == rep
    decreases |rep|
  {
    if rep != [] {
      assert rep[0] != '$';
      assert '$' !in rep[1..] by {
        forall k | 0 <= k < |rep[1..]| ensures rep[1..][k] != '$' {
          assert rep[1..][k] == rep[k + 1];
        }
      }
      ExpandLiteral(rep[1..], matched, before, after);
    }
  }

  /** url.replace(pat, rep) with a string pattern: only the first occurrence is replaced. */
  function ReplaceFirst(s: string, pat: string, rep: string): (r: string)
    ensures IndexOf(s, pat).None? ==> r == s
  {
    match IndexOf(s, pat)
    case None => s
    case Some(i) => s[..i] + Expand(rep, pat, s[..i], s[i + |pat|..]) + s[i + |pat|..]
  }

  /** Whatever the replacement, the text before the first occurrence and the text after it are kept. */
  lemma ReplaceFirstKeepsRest(s: string, pat: string, rep: string, i: nat)
    requires IndexOf(s, pat) == Some(i)
    ensures var r := ReplaceFirst(s, pat, rep);
      && |r| >= i && r[..i] == s[..i]
      && |r| >= |s| - (i + |pat|) && r[|r| - (|s| - (i + |pat|))..] == s[i + |pat|..]
  {
  }

  function Placeholder(key: string): string { ":" + key }

  /** One entry of the loop: replace ":key" when the url contains it. */
  function Substitute(url: string, key: string, value: ParamValue): (r: string)
    ensures r == ReplaceFirst(url, Placeholder(key), ValueString(value))
  {
    if IndexOf(url, Placeholder(key)).Some? then ReplaceFirst(url, Placeholder(key), ValueString(value)) else url
  }

  /** The entries applied in order, each to the result of the ones before it. */
  function ApplyParams(path: string, entries: seq<(string, ParamValue)>): (r: string)
  {
    if entries == [] then path
    else
      var last := entries[|entries| - 1];
      Substitute(ApplyParams(path, entries[..|entries| - 1]), last.0, last.1)
  }

  /**
   * buildUrl. `params` holds the parameter object's entries in the order
   * Object.entries yields them, or None when no object is passed.
   */
  method BuildUrl(path: string, params: Option<seq<(string, ParamValue)>>) returns (url: string)
    ensures params.None? ==> url == path
    ensures params.Some? ==> url == ApplyParams(path, params.value)
  {
    url := path;
    if params.Some? {
      var entries := params.value;
      for i := 0 to |entries|
        invariant url == ApplyParams(path, entries[..i])
      {
        var (key, value) := entries[i];
        ghost var before := url;
        if IndexOf(url, Placeholder(key)).Some? {
          url := ReplaceFirst(url, Placeholder(key), ValueString(value));
        }
        assert url == Substitute(before, key, value);
        assert entries[..i + 1][..i] == entries[..i] && entries[..i + 1][i] == (key, value);
      }
      assert entries[..|entries|] == entries;
    }
  }

  /** A single entry replaces the first ":key" of the path by its value's text. */
  lemma ApplyParamsSingle(path: string, key: string, value: ParamValue)
    ensures ApplyParams(path, [(key, value)]) == ReplaceFirst(path, Placeholder(key), ValueString(value))
  {
    assert [(key, value)][..0] == [];
  }

  /** Applying a + b is applying a, then b to the result. */
  lemma {:induction false} ApplyParamsInOrder(path: string, a: seq<(string, ParamValue)>, b: seq<(string, ParamValue)>)
    ensures ApplyParams(path, a + b) == ApplyParams(ApplyParams(path, a), b)
    decreases |b|
  {
    if b == [] {
      assert a + b == a;
    } else {
      var ab, init, last := a + b, b[..|b| - 1], b[|b| - 1];
      assert ab[..|ab| - 1] == a + init;
      assert ab[|ab| - 1] == last;
      ApplyParamsInOrder(path, a, init);
      calc {
        ApplyParams(path, ab);
        Substitute(ApplyParams(path, a + init), last.0, last.1);
        Substitute(ApplyParams(ApplyParams(path, a), init), last.0, last.1);
        ApplyParams(ApplyParams(path, a), b);
      }
    }
  }

  /** With no parameters, or an empty parameter object, the path comes back unchanged. */
  lemma NoParamsKeepPath(path: string)
    ensures ApplyParams(path, []) == path
  {
  }

  /** A parameter whose ":key" the url does not contain leaves the url as it is. */
  lemma AbsentKeyKeepsUrl(url: string, key: string, value: ParamValue)
    requires forall j :: 0 <= j <= |url| ==> !OccursAt(url, Placeholder(key), j)
    ensures Substitute(url, key, value) == url
  {
  }

  /**
   * A parameter whose ":key" first occurs at index i, with a value whose text
   * has no '$', puts that text in place of exactly that occurrence and keeps
   * everything before and after it, so the length changes by
   * |value| - (|key| + 1).
   */
  lemma PresentKeyReplacesFirst(url: string, key: string, value: ParamValue, i: nat)
    requires OccursAt(url, Placeholder(key), i)
    requires forall j :: 0 <= j < i ==> !OccursAt(url, Placeholder(key), j)
    requires '$' !in ValueString(value)
    ensures Substitute(url, key, value) == url[..i] + ValueString(value) + url[i + |key| + 1..]
    ensures |Substitute(url, key, value)| == |url| + |ValueString(value)| - (|key| + 1)
  {
    var pat := Placeholder(key);
    IndexOfIsFirst(url, pat, i);
    ExpandLiteral(ValueString(value), pat, url[..i], url[i + |pat|..]);
  }

  /** The text of a number has no '$'. */
  lemma NumberTextLiteral(n: int)
    ensures '$' !in IntToString(n)
  {
    var s := NatToString(if n < 0 then -n else n);
    assert forall k :: 0 <= k < |s| ==> IsDigit(s[k]);
  }

  /** The get route's path holds ":id" first at index 14, after "/api/captures/", and ends there. */
  lemma GetRoutePlaceholder()
    ensures IndexOf(GetRoute.path, Placeholder("id")) == Some(14)
    ensures OccursAt(GetRoute.path, Placeholder("id"), 14)
    ensures forall j :: 0 <= j < 14 ==> !OccursAt(GetRoute.path, Placeholder("id"), j)
    ensures GetRoute.path[..14] == "/api/captures/" && GetRoute.path[17..] == ""
  {
    var path, pat := GetRoute.path, Placeholder("id");
    assert path == "/api/captures/" + pat;
    assert OccursAt(path, pat, 14);
    forall j | 0 <= j < 14 ensures !OccursAt(path, pat, j) {
      assert path[j] != ':' == pat[0];
    }
    IndexOfIsFirst(path, pat, 14);
  }

  /** The get route filled with {id: n} is "/api/captures/" followed by the digits of n. */
  lemma GetRouteUrl(n: int)
    ensures ApplyParams(GetRoute.path, [("id", Num(n))]) == "/api/captures/" + IntToString(n)
  {
    var path := GetRoute.path;
    GetRoutePlaceholder();
    NumberTextLiteral(n);
    PresentKeyReplacesFirst(path, "id", Num(n), 14);
    assert ApplyParams(path, [("id", Num(n))]) == Substitute(ApplyParams(path, []), "id", Num(n));
  }

  /** List and create share one path and differ in method; get has its own path. */
  lemma RouteTable()
    ensures ListRoute.path == CreateRoute.path != GetRoute.path
    ensures ListRoute.httpMethod == Get && GetRoute.httpMethod == Get && CreateRoute.httpMethod == Post
  {
    assert |ListRoute.path| != |GetRoute.path|;
  }

  /** The pattern "$&" expands to the matched text. */
  lemma ExpandMatched(matched: string, before: string, after: string)
    ensures Expand("$&", matched, before, after) == matched
  {
    assert Expand("", matched, before, after) == "";
    assert "$&"[2..] == "";
  }

  /**
   * A string value containing a replacement pattern is not inserted
   * literally: {id: "$&"} puts the matched ":id" back.
   */
  lemma ReplacementPatternsExpand()
    ensures ApplyParams(GetRoute.path, [("id", Str("$&"))]) == GetRoute.path
  {
    var path, pat := GetRoute.path, Placeholder("id");
    GetRoutePlaceholder();
    var before, after := path[..14], path[17..];
    ExpandMatched(pat, before, after);
    assert ReplaceFirst(path, pat, "$&") == before + pat + after;
    assert before + pat + after == path;
    ApplyParamsSingle(path, "id", Str("$&"));
  }
}
