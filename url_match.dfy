/**
 * The building blocks of the extractors' URL regular expressions. Every pattern the
 * extractors use is a literal prefix (with optional parts) followed by `X+` for some
 * character class X; since only a `test` is made, `X+` needs just one character of X
 * right after the prefix.
 */
module UrlMatch {
  import opened Wrappers
  import opened JsText

  /** The character classes that follow a literal prefix in the patterns. */
  datatype CharClass =
    | AnyButLineTerminator   // `.`
    | NotIdDelimiter         // `[^&\n?#]`
    | WordChar               // `\w`

  predicate InClass(c: char, cls: CharClass)
  {
    match cls
    case AnyButLineTerminator => !IsLineTerminator(c)
    case NotIdDelimiter => c != '&' && c != '\n' && c != '?' && c != '#'
    case WordChar => ('a' <= c <= 'z') || ('A' <= c <= 'Z') || ('0' <= c <= '9') || c == '_'
  }

  /** `s` matches `^p` followed by at least one character of the class. */
  predicate PrefixThen(s: string, p: string, cls: CharClass)
  {
    StartsWith(s, p) && |s| > |p| && InClass(s[|p|], cls)
  }

  /** Matching a concatenated prefix is matching its first part, then the rest after it. */
  lemma PrefixThenConcat(s: string, a: string, b: string, cls: CharClass)
    ensures PrefixThen(s, a + b, cls) <==> StartsWith(s, a) && PrefixThen(s[|a|..], b, cls)
  {
    if StartsWith(s, a) && PrefixThen(s[|a|..], b, cls) {
      assert s[..|a + b|] == s[..|a|] + s[|a|..][..|b|];
    }
    if PrefixThen(s, a + b, cls) {
      assert s[..|a|] == (a + b)[..|a|];
      assert s[|a|..][..|b|] == s[..|a + b|][|a|..];
      assert (a + b)[|a|..] == b;
    }
  }

  /** `^https?:\/\/`: what follows the scheme when the string starts with one. */
  function AfterScheme(s: string): (r: Option<string>)
    ensures StartsWith(s, "https://") ==> r == Some(s[8..])
    ensures StartsWith(s, "http://") ==> r == Some(s[7..])
    ensures !StartsWith(s, "https://") && !StartsWith(s, "http://") ==> r == None
  {
    if StartsWith(s, "https://") then
      assert s[4] == s[..8][4] == 's';
      assert !StartsWith(s, "http://") by {
        if |s| >= 7 { assert s[..7][4] == s[4]; }
      }
      Some(s[8..])
    else if StartsWith(s, "http://") then Some(s[7..])
    else None
  }

  const Schemes: seq<string> := ["http://", "https://"]

  /** `rest` begins with one of `parts`, then a character of the class; the parts are tried in order. */
  predicate StartsWithOneOf(rest: string, parts: seq<string>, cls: CharClass)
    decreases |parts|
  {
    parts != [] && (PrefixThen(rest, parts[0], cls) || StartsWithOneOf(rest, parts[1..], cls))
  }

  /** `rest` begins with one of the optional sub-domains `subs` and then one of `hosts`. */
  predicate SubThenHost(rest: string, subs: seq<string>, hosts: seq<string>, cls: CharClass)
    decreases |subs|
  {
    subs != [] &&
    ((StartsWith(rest, subs[0]) && StartsWithOneOf(rest[|subs[0]|..], hosts, cls)) || SubThenHost(rest, subs[1..], hosts, cls))
  }

  /**
   * `^https?:\/\/(sub1|sub2|...)?(host1|host2|...)X+`, matched step by step: the
   * scheme, then a host part straight away or after one of the sub-domains.
   */
  predicate SchemeUrl(url: string, subs: seq<string>, hosts: seq<string>, cls: CharClass)
  {
    match AfterScheme(url)
    case None => false
    case Some(rest) => StartsWithOneOf(rest, hosts, cls) || SubThenHost(rest, subs, hosts, cls)
  }

  /** Every literal prefix such a pattern admits: a scheme, an optional sub-domain and a host part. */
  function UrlPrefixes(subs: seq<string>, hosts: seq<string>): set<string>
  {
    set s, w, h | s in Schemes && w in [""] + subs && h in hosts :: s + w + h
  }

  lemma {:induction false} StartsWithOneOfIff(rest: string, parts: seq<string>, cls: CharClass)
    ensures StartsWithOneOf(rest, parts, cls) <==> exists h :: h in parts && PrefixThen(rest, h, cls)
  {
    if parts != [] {
      StartsWithOneOfIff(rest, parts[1..], cls);
      if exists h :: h in parts && PrefixThen(rest, h, cls) {
        var h :| h in parts && PrefixThen(rest, h, cls);
        if h != parts[0] {
          assert h in parts[1..];
        }
      }
    }
  }

  lemma {:induction false} SubThenHostIff(rest: string, subs: seq<string>, hosts: seq<string>, cls: CharClass)
    ensures SubThenHost(rest, subs, hosts, cls) <==>
      exists w, h :: w in subs && h in hosts && PrefixThen(rest, w + h, cls)
  {
    if subs != [] {
      SubThenHostIff(rest, subs[1..], hosts, cls);
      var w0 := subs[0];
      if StartsWith(rest, w0) {
        StartsWithOneOfIff(rest[|w0|..], hosts, cls);
      }
      forall h | h in hosts
        ensures PrefixThen(rest, w0 + h, cls) <==> StartsWith(rest, w0) && PrefixThen(rest[|w0|..], h, cls)
      {
        PrefixThenConcat(rest, w0, h, cls);
      }
      if exists w, h :: w in subs && h in hosts && PrefixThen(rest, w + h, cls) {
        var w, h :| w in subs && h in hosts && PrefixThen(rest, w + h, cls);
        if w != w0 {
          assert w in subs[1..];
        }
      }
    }
  }

  /**
   * The step-by-step matcher accepts exactly the strings that start with one of the
   * pattern's literal prefixes followed by a character of the class.
   */
  lemma SchemeUrlIff(url: string, subs: seq<string>, hosts: seq<string>, cls: CharClass)
    ensures SchemeUrl(url, subs, hosts, cls) <==>
      exists p :: p in UrlPrefixes(subs, hosts) && PrefixThen(url, p, cls)
  {
    if SchemeUrl(url, subs, hosts, cls) {
      var q := SchemeUrlPrefix(url, subs, hosts, cls);
    }
    if exists q :: q in UrlPrefixes(subs, hosts) && PrefixThen(url, q, cls) {
      var q :| q in UrlPrefixes(subs, hosts) && PrefixThen(url, q, cls);
      SchemeUrlFromPrefix(url, subs, hosts, cls, q);
    }
  }

  /** The sub-domain (possibly none) and host part that a matched remainder starts with. */
  lemma HostPartOf(rest: string, subs: seq<string>, hosts: seq<string>, cls: CharClass) returns (w: string, h: string)
    requires StartsWithOneOf(rest, hosts, cls) || SubThenHost(rest, subs, hosts, cls)
    ensures w in [""] + subs && h in hosts && PrefixThen(rest, w + h, cls)
  {
    StartsWithOneOfIff(rest, hosts, cls);
    SubThenHostIff(rest, subs, hosts, cls);
    if StartsWithOneOf(rest, hosts, cls) {
      h :| h in hosts && PrefixThen(rest, h, cls);
      w := "";
      assert w + h == h;
    } else {
      w, h :| w in subs && h in hosts && PrefixThen(rest, w + h, cls);
    }
    assert w in [""] + subs;
  }

  lemma PrefixAdmitted(scheme: string, w: string, h: string, subs: seq<string>, hosts: seq<string>)
    requires scheme in Schemes && w in [""] + subs && h in hosts
    ensures scheme + (w + h) in UrlPrefixes(subs, hosts)
  {
    assert scheme + (w + h) == scheme + w + h;
  }

  lemma SchemeUrlPrefix(url: string, subs: seq<string>, hosts: seq<string>, cls: CharClass) returns (q: string)
    requires SchemeUrl(url, subs, hosts, cls)
    ensures q in UrlPrefixes(subs, hosts) && PrefixThen(url, q, cls)
  {
    var scheme := if StartsWith(url, "https://") then "https://" else "http://";
    var rest := url[|scheme|..];
    assert AfterScheme(url) == Some(rest);
    var w, h := HostPartOf(rest, subs, hosts, cls);
    PrefixThenConcat(url, scheme, w + h, cls);
    PrefixAdmitted(scheme, w, h, subs, hosts);
    q := scheme + (w + h);
  }

  lemma SchemeUrlFromPrefix(url: string, subs: seq<string>, hosts: seq<string>, cls: CharClass, q: string)
    requires q in UrlPrefixes(subs, hosts) && PrefixThen(url, q, cls)
    ensures SchemeUrl(url, subs, hosts, cls)
  {
    var scheme, w, h :| scheme in Schemes && w in [""] + subs && h in hosts && q == scheme + w + h;
    assert q == scheme + (w + h);
    PrefixThenConcat(url, scheme, w + h, cls);
    if scheme == "http://" {
      assert !StartsWith(url, "https://") by {
        if |url| >= 8 { assert url[..7][4] == url[..8][4]; }
      }
    }
    var rest := url[|scheme|..];
    assert AfterScheme(url) == Some(rest);
    StartsWithOneOfIff(rest, hosts, cls);
    SubThenHostIff(rest, subs, hosts, cls);
    if w == "" {
      assert w + h == h;
    } else {
      assert w in subs;
    }
  }
}
