/**
 * Turning the configuration into the list of sections: the schedule key is
 * split into names with strings.Fields, and each name becomes a Section
 * titled with the upper-cased name, timed by its "time" key and running its
 * "cmd" key.  Reading and writing the ini file itself is outside the model;
 * a loaded file is a map from section name (the default section is "") to
 * its keys.
 */
module Config {
  import opened Wrappers
  import opened Sections

  type Ini = map<string, map<string, string>>

  /** cfg.Section(section).Key(key).String(): the value, or "" when the section or key is missing. */
  function Key(cfg: Ini, section: string, key: string): (v: string)
    ensures section in cfg && key in cfg[section] ==> v == cfg[section][key]
    ensures !(section in cfg && key in cfg[section]) ==> v == ""
  {
    if section in cfg && key in cfg[section] then cfg[section][key] else ""
  }

  /** unicode.IsSpace. */
  predicate IsSpace(c: char)
  {
    c == ' ' || c == '\t' || c == '\n' || c == '\U{000B}' || c == '\U{000C}' || c == '\r' ||
    c == '\U{0085}' || c == '\U{00A0}' || c == '\U{1680}' || ('\U{2000}' <= c <= '\U{200A}') ||
    c == '\U{2028}' || c == '\U{2029}' || c == '\U{202F}' || c == '\U{205F}' || c == '\U{3000}'
  }

  predicate NoSpace(s: string)
  {
    forall i :: 0 <= i < |s| ==> !IsSpace(s[i])
  }

  /** The characters of s that are not white space, in order. */
  function Unspaced(s: string): (u: string)
  {
    if s == [] then [] else (if IsSpace(s[0]) then [] else [s[0]]) + Unspaced(s[1..])
  }

  function Concat(fields: seq<string>): (s: string)
  {
    if fields == [] then [] else fields[0] + Concat(fields[1..])
  }

  lemma {:induction false} UnspacedAppend(a: string, b: string)
    ensures Unspaced(a + b) == Unspaced(a) + Unspaced(b)
  {
    if a == [] {
      assert a + b == b;
    } else {
      assert (a + b)[0] == a[0];
      assert (a + b)[1..] == a[1..] + b;
      UnspacedAppend(a[1..], b);
    }
  }

  lemma {:induction false} UnspacedOfWord(w: string)
    requires NoSpace(w)
    ensures Unspaced(w) == w
  {
    if w != [] {
      UnspacedOfWord(w[1..]);
    }
  }

  /** The length of the run of non-space characters s starts with. */
  function WordLength(s: string): (n: nat)
    ensures n <= |s| && NoSpace(s[..n])
    ensures n < |s| ==> IsSpace(s[n])
  {
    if s == [] || IsSpace(s[0]) then 0
    else
      var n := 1 + WordLength(s[1..]);
      assert s[..n] == [s[0]] + s[1..][..n - 1];
      n
  }

  /**
   * strings.Fields: the maximal runs of non-space characters, in order.  Each
   * field is non-empty and has no space in it, and together they hold
   * exactly the non-space characters of s.
   */
  function Fields(s: string): (fields: seq<string>)
    ensures forall k :: 0 <= k < |fields| ==> fields[k] != [] && NoSpace(fields[k])
    ensures Concat(fields) == Unspaced(s)
    decreases |s|
  {
    if s == [] then []
    else if IsSpace(s[0]) then Fields(s[1..])
    else
      var n := WordLength(s);
      FieldsSplit(s, n);
      [s[..n]] + Fields(s[n..])
  }

  lemma FieldsSplit(s: string, n: nat)
    requires 0 < n <= |s| && NoSpace(s[..n])
    ensures Unspaced(s) == s[..n] + Unspaced(s[n..])
  {
    assert s == s[..n] + s[n..];
    UnspacedAppend(s[..n], s[n..]);
    UnspacedOfWord(s[..n]);
  }

  lemma {:induction false} UnspacedEmpty(s: string)
    ensures Unspaced(s) == [] <==> forall i :: 0 <= i < |s| ==> IsSpace(s[i])
  {
    if s != [] {
      UnspacedEmpty(s[1..]);
      assert forall i :: 1 <= i < |s| ==> s[1..][i - 1] == s[i];
    }
  }

  /** A text has no fields exactly when it is all white space (an empty schedule). */
  lemma NoFieldsIffBlank(s: string)
    ensures Fields(s) == [] <==> forall i :: 0 <= i < |s| ==> IsSpace(s[i])
  {
    UnspacedEmpty(s);
    var f := Fields(s);
    if f != [] {
      assert Concat(f) == f[0] + Concat(f[1..]);
      assert |Concat(f)| >= |f[0]| > 0;
    }
  }

  /** Words written out with one space between each two. */
  function JoinSpace(ws: seq<string>): (s: string)
  {
    if ws == [] then [] else if |ws| == 1 then ws[0] else ws[0] + " " + JoinSpace(ws[1..])
  }

  /** A word followed by white space or by nothing is one run of WordLength. */
  lemma {:induction false} WordLengthOfWord(w: string, rest: string)
    requires NoSpace(w) && (rest == [] || IsSpace(rest[0]))
    ensures WordLength(w + rest) == |w|
    decreases |w|
  {
    if w == [] {
      assert w + rest == rest;
    } else {
      assert (w + rest)[0] == w[0];
      assert (w + rest)[1..] == w[1..] + rest;
      WordLengthOfWord(w[1..], rest);
    }
  }

  /**
   * Fields splits at every run of white space and nowhere else: words
   * without white space, written out with spaces between them, split back
   * into exactly those words, so a schedule names as many sections as it
   * has words.
   */
  lemma {:induction false} FieldsOfJoined(ws: seq<string>)
    requires forall k :: 0 <= k < |ws| ==> ws[k] != [] && NoSpace(ws[k])
    ensures Fields(JoinSpace(ws)) == ws
    decreases |ws|
  {
    if |ws| == 1 {
      var w := ws[0];
      WordLengthOfWord(w, []);
      assert w + [] == w;
      assert w[..|w|] == w && w[|w|..] == [];
    } else if |ws| > 1 {
      var w := ws[0];
      var rest := " " + JoinSpace(ws[1..]);
      var s := w + rest;
      assert JoinSpace(ws) == s;
      assert s[0] == w[0];
      WordLengthOfWord(w, rest);
      assert s[..|w|] == w && s[|w|..] == rest;
      assert rest[1..] == JoinSpace(ws[1..]);
      FieldsOfJoined(ws[1..]);
      assert ws == [w] + ws[1..];
    }
  }

  /** strings.ToUpper on ASCII letters: a-z become A-Z, every other character stays. */
  function Upper(s: string): (u: string)
    ensures |u| == |s|
    ensures forall i :: 0 <= i < |s| ==> !('a' <= u[i] <= 'z')
    ensures forall i :: 0 <= i < |s| ==> u[i] == s[i] || ('a' <= s[i] <= 'z' && s[i] as int - u[i] as int == 32)
  {
    if s == [] then []
    else [if 'a' <= s[0] <= 'z' then (s[0] as int - 32) as char else s[0]] + Upper(s[1..])
  }

  /**
   * The sections of a schedule, in schedule order: each titled with its
   * upper-cased name, timed by its "time" key, running its "cmd" key.  The
   * first name whose time does not parse makes the whole list an error.
   */
  function SectionSpecs(names: seq<string>, cfg: Ini, parse: string -> Option<int>): (r: Result<seq<SectionSpec>>)
    ensures r.Ok? <==> forall i :: 0 <= i < |names| ==> parse(Key(cfg, names[i], "time")).Some?
    ensures r.Ok? ==> |r.value| == |names|
    ensures r.Ok? ==> forall i :: 0 <= i < |names| ==>
      r.value[i] == ParseSection(Upper(names[i]), Key(cfg, names[i], "time"), Key(cfg, names[i], "cmd"), parse).value
  {
    if names == [] then Ok([])
    else
      var name := names[0];
      match ParseSection(Upper(name), Key(cfg, name, "time"), Key(cfg, name, "cmd"), parse)
      case Err(e) => Err(e)
      case Ok(s) =>
        match SectionSpecs(names[1..], cfg, parse)
        case Err(e) =>
          assert forall i :: 1 <= i < |names| ==> names[1..][i - 1] == names[i];
          Err(e)
        case Ok(rest) =>
          assert forall i :: 1 <= i < |names| ==> names[1..][i - 1] == names[i];
          Ok([s] + rest)
  }

  /** The error names the time text of the first section whose time does not parse. */
  lemma {:induction false} FirstBadTimeIsReported(names: seq<string>, cfg: Ini, parse: string -> Option<int>, k: nat)
    requires k < |names| && parse(Key(cfg, names[k], "time")).None?
    requires forall j :: 0 <= j < k ==> parse(Key(cfg, names[j], "time")).Some?
    ensures SectionSpecs(names, cfg, parse) == Err(BadDuration(Key(cfg, names[k], "time")))
  {
    if k > 0 {
      assert forall j :: 0 <= j < k - 1 ==> names[1..][j] == names[j + 1];
      FirstBadTimeIsReported(names[1..], cfg, parse, k - 1);
    }
  }

  function Specs(sections: seq<Section>): (specs: seq<SectionSpec>)
  {
    seq(|sections|, i requires 0 <= i < |sections| => sections[i].Spec())
  }

  /**
   * The construction loop of main: one new Section per name, appended in
   * order; the first name whose time does not parse stops the run.
   */
  method BuildSections(names: seq<string>, cfg: Ini, parse: string -> Option<int>) returns (r: Result<seq<Section>>)
    ensures r.Err? <==> SectionSpecs(names, cfg, parse).Err?
    ensures r.Err? ==> r.error == SectionSpecs(names, cfg, parse).error
    ensures r.Ok? ==> Specs(r.value) == SectionSpecs(names, cfg, parse).value
    ensures r.Ok? ==> forall i :: 0 <= i < |r.value| ==> fresh(r.value[i]) && r.value[i].process == None
    ensures r.Ok? ==> forall i, j :: 0 <= i < j < |r.value| ==> r.value[i] != r.value[j]
  {
    var sections: seq<Section> := [];
    for k := 0 to |names|
      invariant |sections| == k
      invariant forall i :: 0 <= i < k ==> parse(Key(cfg, names[i], "time")).Some?
      invariant forall i :: 0 <= i < k ==> fresh(sections[i]) && sections[i].process == None
      invariant forall i :: 0 <= i < k ==>
        sections[i].Spec() == ParseSection(Upper(names[i]), Key(cfg, names[i], "time"), Key(cfg, names[i], "cmd"), parse).value
      invariant forall i, j :: 0 <= i < j < k ==> sections[i] != sections[j]
    {
      var name := names[k];
      var s := NewSection(Upper(name), Key(cfg, name, "time"), Key(cfg, name, "cmd"), parse);
      if s.Err? {
        FirstBadTimeIsReported(names, cfg, parse, k);
        return Err(s.error);
      }
      sections := sections + [s.value];
    }
    assert Specs(sections) == SectionSpecs(names, cfg, parse).value;
    return Ok(sections);
  }
}
