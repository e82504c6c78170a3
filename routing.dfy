/**
 * Route metadata of the HTTP routing package: the URI a route is served
 * under and the one-line description of a route.
 *
 * Both are single string formats over the route's fields.  Beside the
 * shapes they promise (length, prefix, suffix, the fields they depend on),
 * each format has an inverse parser, and the round trips are proved: a URI
 * splits back into its three parts when the first two hold no '/', and a
 * description parses back into its fields when the labelled ones hold no ','.
 */
module Routing {
  import opened Wrappers

  /** Opaque identity of the route's HTTP handler function. */
  type Handler = nat

  datatype Route = Route(
    Name: string,
    Method: string,
    ResourcePath: string,
    Version: string,
    NameSpace: string,
    HandlerFunc: Handler)

  const NameLabel: string := "Name: "
  const MethodLabel: string := ", Method: "
  const VersionLabel: string := ", Version: "
  const URILabel: string := ", URI: "

  /** The path the route is served under: namespace, version and resource path joined by '/'. */
  function GetURI(r: Route): (u: string)
    ensures |u| == |r.NameSpace| + |r.Version| + |r.ResourcePath| + 2
    ensures r.NameSpace + "/" <= u && r.NameSpace + "/" + r.Version + "/" <= u
    ensures u[|r.NameSpace|] == '/' && u[|r.NameSpace| + |r.Version| + 1] == '/'
    ensures u[|u| - |r.ResourcePath| - 1..] == "/" + r.ResourcePath
  {
    r.NameSpace + "/" + r.Version + "/" + r.ResourcePath
  }

  /** The labelled description of a route (the Go `String` method of `*Route`). */
  function String(r: Route): (s: string)
    ensures NameLabel + r.Name <= s
    ensures |s| == |NameLabel| + |r.Name| + |MethodLabel| + |r.Method|
                   + |VersionLabel| + |r.Version| + |URILabel| + |GetURI(r)|
    ensures s[|NameLabel + r.Name|..|s| - |URILabel + GetURI(r)|]
            == MethodLabel + r.Method + VersionLabel + r.Version
    ensures s[|s| - |URILabel + GetURI(r)|..] == URILabel + GetURI(r)
  {
    Labelled(r.Name, r.Method, r.Version, GetURI(r))
  }

  /** The description format: each field after its label, in the order name, method, version, URI. */
  function Labelled(name: string, verb: string, version: string, uri: string): string
  {
    NameLabel + (name + MethodLabel + (verb + VersionLabel + (version + URILabel + uri)))
  }

  /** The URI reads only the namespace, the version and the resource path. */
  lemma GetURIOnlyPathFields(r1: Route, r2: Route)
    requires r1.NameSpace == r2.NameSpace && r1.Version == r2.Version
    requires r1.ResourcePath == r2.ResourcePath
    ensures GetURI(r1) == GetURI(r2)
  {
  }

  /** The description reads only the name, the method and the three URI fields; never the handler. */
  lemma StringIgnoresHandler(r1: Route, r2: Route)
    requires r1.Name == r2.Name && r1.Method == r2.Method && r1.Version == r2.Version
    requires r1.NameSpace == r2.NameSpace && r1.ResourcePath == r2.ResourcePath
    ensures String(r1) == String(r2)
  {
  }

  /** Position of the first `ch` in `s`, or `|s|` when there is none. */
  function IndexOf(s: string, ch: char): (i: nat)
    ensures i <= |s|
    ensures i < |s| ==> s[i] == ch
    ensures forall j :: 0 <= j < i ==> s[j] != ch
  {
    if s == [] then 0
    else if s[0] == ch then 0
    else 1 + IndexOf(s[1..], ch)
  }

  /** The first `ch` of `a + [ch] + b` is the one after `a` when `a` holds none. */
  lemma IndexOfAfter(a: string, ch: char, b: string)
    requires ch !in a
    ensures IndexOf(a + [ch] + b, ch) == |a|
  {
    var s := a + [ch] + b;
    assert s[|a|] == ch;
    assert forall j :: 0 <= j < |a| ==> s[j] == a[j];
  }

  /** The rest of `s` after `pre`, when `s` starts with `pre`. */
  function StripPrefix(s: string, pre: string): (r: Option<string>)
    ensures r.Some? <==> pre <= s
    ensures r.Some? ==> pre + r.value == s
  {
    if pre <= s then Some(s[|pre|..]) else None
  }

  lemma StripPrefixOf(pre: string, rest: string)
    ensures StripPrefix(pre + rest, pre) == Some(rest)
  {
    assert (pre + rest)[|pre|..] == rest;
  }

  /** Splits a URI at its first two '/' into namespace, version and resource path. */
  function SplitURI(u: string): Option<(string, string, string)>
  {
    var i := IndexOf(u, '/');
    if i == |u| then None
    else
      var rest := u[i + 1..];
      var j := IndexOf(rest, '/');
      if j == |rest| then None
      else Some((u[..i], rest[..j], rest[j + 1..]))
  }

  /** Cutting `s` at the first `ch` gives a part free of `ch`, the `ch`, and the rest. */
  lemma CutAtFirst(s: string, ch: char)
    requires IndexOf(s, ch) < |s|
    ensures var i := IndexOf(s, ch);
      ch !in s[..i] && s == s[..i] + [ch] + s[i + 1..]
  {
    var i := IndexOf(s, ch);
    assert s == s[..i] + [s[i]] + s[i + 1..];
  }

  /** Whatever SplitURI returns joins back into the URI it was given, with no '/' in the first two parts. */
  lemma SplitURISound(u: string)
    requires SplitURI(u).Some?
    ensures var parts := SplitURI(u).value;
      && '/' !in parts.0 && '/' !in parts.1
      && parts.0 + "/" + parts.1 + "/" + parts.2 == u
  {
    var i := IndexOf(u, '/');
    var rest := u[i + 1..];
    var j := IndexOf(rest, '/');
    var ns, v, path := u[..i], rest[..j], rest[j + 1..];
    assert SplitURI(u).value == (ns, v, path);
    CutAtFirst(u, '/');
    CutAtFirst(rest, '/');
    JoinParts(u, ns, rest, v, path);
  }

  lemma JoinParts(u: string, ns: string, rest: string, v: string, path: string)
    requires u == ns + "/" + rest && rest == v + "/" + path
    ensures ns + "/" + v + "/" + path == u
  {
  }

  /** A route's URI splits back into its namespace, version and resource path. */
  lemma {:induction false} SplitURIRoundTrip(r: Route)
    requires '/' !in r.NameSpace && '/' !in r.Version
    ensures SplitURI(GetURI(r)) == Some((r.NameSpace, r.Version, r.ResourcePath))
  {
    var u := GetURI(r);
    var rest := r.Version + "/" + r.ResourcePath;
    assert u == r.NameSpace + ['/'] + rest;
    IndexOfAfter(r.NameSpace, '/', rest);
    assert u[..|r.NameSpace|] == r.NameSpace;
    assert u[|r.NameSpace| + 1..] == rest;
    assert rest == r.Version + ['/'] + r.ResourcePath;
    IndexOfAfter(r.Version, '/', r.ResourcePath);
    assert rest[..|r.Version|] == r.Version;
    assert rest[|r.Version| + 1..] == r.ResourcePath;
  }

  /** Without that restriction the URI does not determine the fields: two routes share "a/b/c/d". */
  lemma GetURIAmbiguous()
    ensures var r1 := Route("n", "GET", "d", "c", "a/b", 0);
            var r2 := Route("n", "GET", "d", "b/c", "a", 0);
            r1 != r2 && GetURI(r1) == GetURI(r2) == "a/b/c/d"
  {
  }

  /** Reads a description back into its name, method, version and URI. */
  function ParseString(s: string): Option<(string, string, string, string)>
  {
    match StripPrefix(s, NameLabel)
    case None => None
    case Some(rest0) =>
      var i := IndexOf(rest0, ',');
      match StripPrefix(rest0[i..], MethodLabel)
      case None => None
      case Some(rest1) =>
        var j := IndexOf(rest1, ',');
        match StripPrefix(rest1[j..], VersionLabel)
        case None => None
        case Some(rest2) =>
          var k := IndexOf(rest2, ',');
          match StripPrefix(rest2[k..], URILabel)
          case None => None
          case Some(uri) => Some((rest0[..i], rest1[..j], rest2[..k], uri))
  }

  /** When the text after the first ',' of `s` starts with `marker`, `s` is a ','-free part, the marker and the rest. */
  lemma SplitAtMarker(s: string, marker: string)
    requires StripPrefix(s[IndexOf(s, ',')..], marker).Some?
    ensures var i := IndexOf(s, ',');
      var tail := StripPrefix(s[i..], marker).value;
      ',' !in s[..i] && s == s[..i] + marker + tail
  {
    var i := IndexOf(s, ',');
    var tail := StripPrefix(s[i..], marker).value;
    var front := s[..i];
    assert ',' !in front by {
      forall x | 0 <= x < |front| ensures front[x] != ',' {
        assert front[x] == s[x];
      }
    }
    assert s == front + s[i..];
    assert s[i..] == marker + tail;
    assert front + (marker + tail) == front + marker + tail;
  }

  /** Whatever ParseString returns formats back into the description it was given, with no ',' in the labelled fields. */
  lemma ParseStringSound(s: string)
    requires ParseString(s).Some?
    ensures var f := ParseString(s).value;
      && ',' !in f.0 && ',' !in f.1 && ',' !in f.2
      && Labelled(f.0, f.1, f.2, f.3) == s
  {
    var rest0 := StripPrefix(s, NameLabel).value;
    var i := IndexOf(rest0, ',');
    var rest1 := StripPrefix(rest0[i..], MethodLabel).value;
    var j := IndexOf(rest1, ',');
    var rest2 := StripPrefix(rest1[j..], VersionLabel).value;
    var k := IndexOf(rest2, ',');
    var uri := StripPrefix(rest2[k..], URILabel).value;
    var name, verb, version := rest0[..i], rest1[..j], rest2[..k];
    assert ParseString(s).value == (name, verb, version, uri);
    SplitAtMarker(rest0, MethodLabel);
    SplitAtMarker(rest1, VersionLabel);
    SplitAtMarker(rest2, URILabel);
  }

  /** Cuts `s` at the first ',' and expects `marker` there; gives the part before and the rest after the marker. */
  lemma CutAtLabel(field: string, marker: string, tail: string)
    requires ',' !in field && |marker| > 0 && marker[0] == ','
    ensures var s := field + marker + tail;
            var i := IndexOf(s, ',');
            i == |field| && s[..i] == field && StripPrefix(s[i..], marker) == Some(tail)
  {
    var s := field + marker + tail;
    assert s == field + [','] + (marker[1..] + tail);
    IndexOfAfter(field, ',', marker[1..] + tail);
    assert s[..|field|] == field;
    assert s[|field|..] == marker + tail;
    StripPrefixOf(marker, tail);
  }

  /** The parser undoes the description format for fields free of ','. */
  lemma {:induction false} ParseStringOf(name: string, verb: string, version: string, uri: string)
    requires ',' !in name && ',' !in verb && ',' !in version
    ensures ParseString(Labelled(name, verb, version, uri)) == Some((name, verb, version, uri))
  {
    var rest2 := version + URILabel + uri;
    var rest1 := verb + VersionLabel + rest2;
    var rest0 := name + MethodLabel + rest1;
    StripPrefixOf(NameLabel, rest0);
    CutAtLabel(name, MethodLabel, rest1);
    CutAtLabel(verb, VersionLabel, rest2);
    CutAtLabel(version, URILabel, uri);
  }

  /** A description parses back into its fields when the name, method and version hold no ','. */
  lemma {:induction false} StringRoundTrip(r: Route)
    requires ',' !in r.Name && ',' !in r.Method && ',' !in r.Version
    ensures ParseString(String(r)) == Some((r.Name, r.Method, r.Version, GetURI(r)))
  {
    ParseStringOf(r.Name, r.Method, r.Version, GetURI(r));
  }
}
