/** String handling the workflow does itself: Python's `sep.join(parts)`,
    `template.format(**args)` with named placeholders, and `s.strip()`. */
module Text {

  function SumLengths(parts: seq<string>): nat
  {
    if parts == [] then 0 else |parts[0]| + SumLengths(parts[1..])
  }

  /** `sep.join(parts)`: the parts in order, with `sep` between neighbours and
      nowhere else. */
  function Join(sep: string, parts: seq<string>): (r: string)
    ensures |r| == SumLengths(parts) + (if parts == [] then 0 else |sep| * (|parts| - 1))
    ensures parts != [] ==> r[..|parts[0]|] == parts[0]
  {
    if parts == [] then ""
    else if |parts| == 1 then parts[0]
    else parts[0] + sep + Join(sep, parts[1..])
  }

  /** Joining one more part adds the separator and that part at the end, which is
      how Python's `join` walks its argument. */
  lemma {:induction false} JoinAppend(sep: string, parts: seq<string>, x: string)
    ensures Join(sep, parts + [x]) == if parts == [] then x else Join(sep, parts) + sep + x
  {
    if |parts| >= 2 {
      assert (parts + [x])[1..] == parts[1..] + [x];
      JoinAppend(sep, parts[1..], x);
    } else if |parts| == 1 {
      assert (parts + [x])[1..] == [x];
    }
  }

  /** Joining a part before at least one other puts the separator between them. */
  lemma JoinCons(sep: string, x: string, rest: seq<string>)
    requires rest != []
    ensures Join(sep, [x] + rest) == x + sep + Join(sep, rest)
  {
    assert ([x] + rest)[1..] == rest;
  }

  /** When no part is empty, the joined string is empty exactly when there are no parts. */
  lemma JoinEmptyIff(sep: string, parts: seq<string>)
    requires forall i :: 0 <= i < |parts| ==> parts[i] != ""
    ensures Join(sep, parts) == "" <==> parts == []
  {
    if parts != [] {
      assert |Join(sep, parts)| >= |parts[0]| > 0;
    }
  }

  /** A piece of a `str.format` template: literal text, or a `{name}` placeholder. */
  datatype Segment = Lit(text: string) | Hole(name: string)

  type Template = seq<Segment>

  /** The outcome of `str.format`: the text, or the `KeyError` raised for the
      first placeholder that has no argument. */
  datatype Formatted = Ok(text: string) | KeyError(key: string)

  /** The names of a template's placeholders. */
  function Holes(t: Template): set<string>
  {
    if t == [] then {}
    else (if t[0].Hole? then {t[0].name} else {}) + Holes(t[1..])
  }

  /** The text one segment formats to, when its placeholder has an argument. */
  function SegmentText(g: Segment, args: map<string, string>): string
    requires g.Hole? ==> g.name in args
  {
    match g
    case Lit(s) => s
    case Hole(n) => args[n]
  }

  /** The formatted text of a template all of whose placeholders have arguments. */
  function Fill(t: Template, args: map<string, string>): string
    requires Holes(t) <= args.Keys
  {
    if t == [] then "" else SegmentText(t[0], args) + Fill(t[1..], args)
  }

  /** `t.format(**args)`: every placeholder replaced by its argument, and arguments
      no placeholder names ignored; it fails exactly when some placeholder has no
      argument, and then names such a placeholder. */
  function Format(t: Template, args: map<string, string>): (r: Formatted)
    ensures r.Ok? <==> Holes(t) <= args.Keys
    ensures r.Ok? ==> r.text == Fill(t, args)
    ensures r.KeyError? ==> r.key in Holes(t) && r.key !in args
  {
    if t == [] then Ok("")
    else if t[0].Hole? && t[0].name !in args then KeyError(t[0].name)
    else
      var rest := Format(t[1..], args);
      if rest.KeyError? then rest else Ok(SegmentText(t[0], args) + rest.text)
  }

  lemma {:induction false} HolesAppend(t1: Template, t2: Template)
    ensures Holes(t1 + t2) == Holes(t1) + Holes(t2)
  {
    if t1 != [] {
      assert (t1 + t2)[1..] == t1[1..] + t2;
      HolesAppend(t1[1..], t2);
    } else {
      assert t1 + t2 == t2;
    }
  }

  /** Formatting distributes over the concatenation of templates. */
  lemma {:induction false} FillAppend(t1: Template, t2: Template, args: map<string, string>)
    requires Holes(t1 + t2) <= args.Keys
    ensures Holes(t1) <= args.Keys && Holes(t2) <= args.Keys
    ensures Fill(t1 + t2, args) == Fill(t1, args) + Fill(t2, args)
  {
    HolesAppend(t1, t2);
    if t1 != [] {
      assert (t1 + t2)[0] == t1[0];
      assert (t1 + t2)[1..] == t1[1..] + t2;
      FillAppend(t1[1..], t2, args);
    } else {
      assert t1 + t2 == t2;
    }
  }

  /** Where a template has a placeholder, the formatted text holds that
      placeholder's argument, between what the text before and after formats to. */
  lemma FormatShowsArgument(t: Template, args: map<string, string>, i: nat)
    requires i < |t| && t[i].Hole?
    requires Holes(t) <= args.Keys
    ensures t[i].name in args
    ensures Holes(t[..i]) <= args.Keys && Holes(t[i + 1..]) <= args.Keys
    ensures Format(t, args).text
         == Format(t[..i], args).text + args[t[i].name] + Format(t[i + 1..], args).text
  {
    assert t == t[..i] + ([t[i]] + t[i + 1..]);
    FillAppend(t[..i], [t[i]] + t[i + 1..], args);
    FillAppend([t[i]], t[i + 1..], args);
    assert [t[i]][1..] == [];
  }

  /** A name among a template's placeholders stands at some position of it. */
  lemma {:induction false} HoleAt(t: Template, n: string) returns (i: nat)
    requires n in Holes(t)
    ensures i < |t| && t[i] == Hole(n)
  {
    if t[0] == Hole(n) {
      i := 0;
    } else {
      var j := HoleAt(t[1..], n);
      i := j + 1;
    }
  }

  /** `sub` occurs in `s`. */
  ghost predicate Contains(s: string, sub: string)
  {
    exists pre: string, post: string :: s == pre + sub + post
  }

  /** Formatting a template puts the argument of each of its placeholders into the text. */
  lemma FormatContainsArgument(t: Template, args: map<string, string>, n: string)
    requires Holes(t) <= args.Keys
    requires n in Holes(t)
    ensures n in args && Contains(Format(t, args).text, args[n])
  {
    var i := HoleAt(t, n);
    FormatShowsArgument(t, args, i);
    var pre, post := Format(t[..i], args).text, Format(t[i + 1..], args).text;
    assert Format(t, args).text == pre + args[n] + post;
  }

  /** The characters Python's `str.isspace` accepts, which `strip()` removes. */
  const Whitespace: set<char> := {
    '\U{9}', '\U{a}', '\U{b}', '\U{c}', '\U{d}', '\U{1c}', '\U{1d}', '\U{1e}',
    '\U{1f}', ' ', '\U{85}', '\U{a0}', '\U{1680}', '\U{2000}', '\U{2001}', '\U{2002}',
    '\U{2003}', '\U{2004}', '\U{2005}', '\U{2006}', '\U{2007}', '\U{2008}', '\U{2009}', '\U{200a}',
    '\U{2028}', '\U{2029}', '\U{202f}', '\U{205f}', '\U{3000}'
  }

  predicate IsSpace(c: char)
  {
    c in Whitespace
  }

  predicate AllSpace(s: string)
  {
    forall i :: 0 <= i < |s| ==> IsSpace(s[i])
  }

  /** `s` neither starts nor ends with white space. */
  predicate IsStripped(s: string)
  {
    s == [] || (!IsSpace(s[0]) && !IsSpace(s[|s| - 1]))
  }

  /** `s.lstrip()`: what is left after the leading white space. */
  function TrimStart(s: string): string
  {
    if s != [] && IsSpace(s[0]) then TrimStart(s[1..]) else s
  }

  /** `s.lstrip()` takes off white space only, and all of it. */
  lemma {:induction false} TrimStartSpec(s: string)
    ensures var r := TrimStart(s);
      && |r| <= |s| && r == s[|s| - |r|..]
      && AllSpace(s[..|s| - |r|])
      && (r == [] || !IsSpace(r[0]))
  {
    if s != [] && IsSpace(s[0]) {
      var u := s[1..];
      TrimStartSpec(u);
      var r := TrimStart(u);
      assert s[|s| - |r|..] == u[|u| - |r|..];
      assert s[..|s| - |r|] == [s[0]] + u[..|u| - |r|];
    }
  }

  /** `s.rstrip()`: what is left before the trailing white space. */
  function TrimEnd(s: string): string
  {
    if s != [] && IsSpace(s[|s| - 1]) then TrimEnd(s[..|s| - 1]) else s
  }

  /** `s.rstrip()` takes off white space only, and all of it. */
  lemma {:induction false} TrimEndSpec(s: string)
    ensures var r := TrimEnd(s);
      && |r| <= |s| && r == s[..|r|]
      && AllSpace(s[|r|..])
      && (r == [] || !IsSpace(r[|r| - 1]))
  {
    if s != [] && IsSpace(s[|s| - 1]) {
      var u := s[..|s| - 1];
      TrimEndSpec(u);
      var r := TrimEnd(u);
      assert s[..|r|] == u[..|r|];
      assert s[|r|..] == u[|r|..] + [s[|s| - 1]];
    }
  }

  /** `s.strip()`: `s` without white space at either end. */
  function Strip(s: string): (r: string)
    ensures IsStripped(r)
  {
    var t := TrimStart(s);
    TrimStartSpec(s);
    TrimEndSpec(t);
    var r := TrimEnd(t);
    assert r != [] ==> r[0] == t[0];
    r
  }

  /** `s.strip()` takes off white space only: `s` is the stripped text with white
      space before and after it. */
  lemma StripSpec(s: string)
    ensures exists pre, post :: s == pre + Strip(s) + post && AllSpace(pre) && AllSpace(post)
  {
    var t := TrimStart(s);
    TrimStartSpec(s);
    TrimEndSpec(t);
    var r := TrimEnd(t);
    var pre, post := s[..|s| - |t|], t[|r|..];
    assert s == pre + r + post;
  }

  /** Stripping a string that has no white space at either end changes nothing, so
      stripping twice is stripping once. */
  lemma StripStripped(s: string)
    requires IsStripped(s)
    ensures Strip(s) == s
  {
  }
}
