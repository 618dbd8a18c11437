/**
 * The part of Go's path/filepath that the tools rely on, for '/'-separated paths: a path is
 * its list of segments, Clean resolves "." and ".." in that list, and Join cleans the
 * joined text. A cleaned absolute path is the list of its names.
 */
module FilePath {
  import opened Text

  /** The text between the separators, from the first to the last. */
  function Segments(s: string): (r: seq<string>)
    ensures |r| >= 1
    decreases |s|
  {
    if s == [] then [""]
    else
      var rest := Segments(s[1..]);
      if s[0] == '/' then [""] + rest else [[s[0]] + rest[0]] + rest[1..]
  }

  /** A segment that names something: not empty, not "." or "..", no separator. */
  predicate Plain(seg: string) {
    seg != "" && seg != "." && seg != ".." && '/' !in seg
  }

  predicate AllPlain(segs: seq<string>) {
    forall i :: 0 <= i < |segs| ==> Plain(segs[i])
  }

  /** One segment of Clean's scan: "" and "." vanish, ".." climbs, a name goes on. */
  function Push(stack: seq<string>, seg: string, rooted: bool): seq<string> {
    if seg == "" || seg == "." then stack
    else if seg == ".." then
      if stack != [] && stack[|stack| - 1] != ".." then stack[..|stack| - 1]
      else if rooted then stack
      else stack + [".."]
    else stack + [seg]
  }

  /** Clean's scan of a list of segments, onto what an earlier part left. */
  function Scan(stack: seq<string>, segs: seq<string>, rooted: bool): seq<string>
    decreases |segs|
  {
    if segs == [] then stack else Push(Scan(stack, segs[..|segs| - 1], rooted), segs[|segs| - 1], rooted)
  }

  /** An absolute path's text: "/" for the root, otherwise "/name" for each name. */
  function Names(stack: seq<string>): string
    decreases |stack|
  {
    if stack == [] then "" else "/" + stack[0] + Names(stack[1..])
  }

  function Render(stack: seq<string>): string {
    if stack == [] then "/" else Names(stack)
  }

  predicate Rooted(p: string) {
    HasPrefix(p, "/")
  }

  /** filepath.Clean. */
  function Clean(p: string): string {
    var stack := Scan([], Segments(p), Rooted(p));
    if Rooted(p) then Render(stack)
    else if stack == [] then "."
    else Join(stack, "/")
  }

  /** filepath.Join of two elements: the non-empty ones, joined by a separator, cleaned. */
  function Join2(a: string, b: string): string {
    if a == "" && b == "" then ""
    else if a == "" then Clean(b)
    else if b == "" then Clean(a)
    else Clean(a + "/" + b)
  }

  /** Whether `a` is a leading part of `b`. */
  predicate IsPrefix(a: seq<string>, b: seq<string>) {
    |a| <= |b| && b[..|a|] == a
  }

  // ---------------------------------------------------------------------------------------
  // Facts about the functions above

  /** No segment holds a separator. */
  lemma {:induction false} SegmentsSeparated(s: string)
    ensures forall i :: 0 <= i < |Segments(s)| ==> '/' !in Segments(s)[i]
    decreases |s|
  {
    if s != [] {
      SegmentsSeparated(s[1..]);
    }
  }

  lemma {:induction false} SegmentsOfName(x: string)
    requires '/' !in x
    ensures Segments(x) == [x]
    decreases |x|
  {
    if x != [] {
      SegmentsOfName(x[1..]);
      assert [x[0]] + x[1..] == x;
    }
  }

  /** A separator between two texts separates their segments. */
  lemma {:induction false} SegmentsJoin(a: string, b: string)
    ensures Segments(a + "/" + b) == Segments(a) + Segments(b)
    decreases |a|
  {
    var s := a + "/" + b;
    if a == [] {
      assert s[1..] == b;
    } else {
      var a', sb := a[1..], Segments(b);
      assert s[0] == a[0] && s[1..] == a' + "/" + b;
      SegmentsJoin(a', b);
      SegmentsStep(s, a[0], Segments(a'), sb);
      SegmentsStep(a, a[0], Segments(a'), []);
    }
  }

  /** One step of Segments, on a text whose tail has the segments `rest + more`. */
  lemma SegmentsStep(s: string, c: char, rest: seq<string>, more: seq<string>)
    requires s != [] && s[0] == c && |rest| >= 1 && Segments(s[1..]) == rest + more
    ensures Segments(s) == (if c == '/' then [""] + rest else [[c] + rest[0]] + rest[1..]) + more
  {
    if c != '/' {
      assert (rest + more)[0] == rest[0] && (rest + more)[1..] == rest[1..] + more;
      Assoc([[c] + rest[0]], rest[1..], more);
    } else {
      Assoc([""], rest, more);
    }
  }

  /** Scanning two lists is scanning the second onto what the first left. */
  lemma {:induction false} ScanAppend(stack: seq<string>, x: seq<string>, y: seq<string>, rooted: bool)
    ensures Scan(stack, x + y, rooted) == Scan(Scan(stack, x, rooted), y, rooted)
    decreases |y|
  {
    if y == [] {
      assert x + y == x;
    } else {
      assert (x + y)[..|x + y| - 1] == x + y[..|y| - 1];
      ScanAppend(stack, x, y[..|y| - 1], rooted);
    }
  }

  /** Names are put on the stack as they are. */
  lemma {:induction false} ScanNames(stack: seq<string>, names: seq<string>, rooted: bool)
    requires AllPlain(names)
    ensures Scan(stack, names, rooted) == stack + names
    decreases |names|
  {
    if names != [] {
      ScanNames(stack, names[..|names| - 1], rooted);
      assert stack + names[..|names| - 1] + [names[|names| - 1]] == stack + names;
    }
  }

  /** An absolute scan from a list of names leaves a list of names. */
  lemma {:induction false} ScanRootedPlain(stack: seq<string>, segs: seq<string>)
    requires AllPlain(stack)
    requires forall i :: 0 <= i < |segs| ==> '/' !in segs[i]
    ensures AllPlain(Scan(stack, segs, true))
    decreases |segs|
  {
    if segs != [] {
      ScanRootedPlain(stack, segs[..|segs| - 1]);
    }
  }

  /** ".." climbs one name per step, as long as there is one. */
  lemma {:induction false} ScanClimbs(stack: seq<string>, k: nat)
    requires AllPlain(stack) && k <= |stack|
    ensures Scan(stack, seq(k, _ => ".."), true) == stack[..|stack| - k]
  {
    if k > 0 {
      var ups := seq(k, _ => "..");
      assert ups[..k - 1] == seq(k - 1, _ => "..");
      ScanClimbs(stack, k - 1);
    }
  }

  lemma {:induction false} SegmentsOfNames(x: string, rest: seq<string>)
    requires '/' !in x && forall i :: 0 <= i < |rest| ==> '/' !in rest[i]
    ensures Segments(x + Names(rest)) == [x] + rest
    decreases |rest|
  {
    if rest == [] {
      assert x + Names(rest) == x;
      SegmentsOfName(x);
    } else {
      assert x + Names(rest) == x + "/" + (rest[0] + Names(rest[1..]));
      SegmentsJoin(x, rest[0] + Names(rest[1..]));
      SegmentsOfName(x);
      SegmentsOfNames(rest[0], rest[1..]);
      assert [rest[0]] + rest[1..] == rest;
    }
  }

  /** Cleaning the text of a cleaned absolute path gives it back. */
  lemma CleanRender(stack: seq<string>)
    requires AllPlain(stack)
    ensures Clean(Render(stack)) == Render(stack)
  {
    var p := Render(stack);
    assert Rooted(p);
    if stack == [] {
      assert p == "" + "/" + "";
      SegmentsJoin("", "");
      assert Segments(p) == ["", ""];
      assert Scan([], ["", ""], true) == Push(Scan([], [""], true), "", true);
    } else {
      assert p == "" + Names(stack);
      SegmentsOfNames("", stack);
      assert Segments(p) == [""] + stack;
      ScanAppend([], [""], stack, true);
      assert Scan([], [""], true) == [];
      ScanNames([], stack, true);
      assert Scan([], Segments(p), true) == stack;
    }
  }

  /** Names(stack) ends where a separator would start its next name. */
  lemma NamesSlash(stack: seq<string>)
    ensures (Names(stack) + "/")[0] == '/'
  {
  }

  /** Two names, each followed by a separator-led text, line up only if they are the same name. */
  lemma NameSlash(u: string, v: string, x: string, y: string)
    requires '/' !in u && '/' !in v
    requires x != [] && x[0] == '/' && y != [] && y[0] == '/'
    ensures HasPrefix(v + x, u + y) <==> u == v && HasPrefix(x, y)
  {
    if |u| < |v| {
      assert (u + y)[|u|] == '/';
      assert (v + x)[|u|] == v[|u|];
      assert v[|u|] in v;
    } else if |u| > |v| {
      if |u + y| <= |v + x| {
        assert (v + x)[|v|] == '/';
        assert (u + y)[|v|] == u[|v|];
        assert u[|v|] in u;
      }
    } else {
      if HasPrefix(v + x, u + y) {
        assert (v + x)[..|u|] == v && (u + y)[..|u|] == u;
        assert (v + x)[..|u + y|][..|u|] == (v + x)[..|u|];
        assert (v + x)[|v|..][..|y|] == (v + x)[..|u + y|][|u|..];
      }
      if u == v && HasPrefix(x, y) {
        assert (v + x)[..|u + y|] == v + x[..|y|];
      }
    }
  }

  /** With a separator after each, one absolute path's text leads the other's exactly when its names do. */
  lemma {:induction false} PrefixSlash(a: seq<string>, b: seq<string>)
    requires forall i :: 0 <= i < |a| ==> '/' !in a[i]
    requires forall i :: 0 <= i < |b| ==> '/' !in b[i]
    ensures HasPrefix(Names(b) + "/", Names(a) + "/") <==> IsPrefix(a, b)
    decreases |a|
  {
    if a == [] {
      assert (Names(b) + "/")[..1] == "/" by { NamesSlash(b); }
    } else if b == [] {
      assert |Names(a) + "/"| > 1;
    } else {
      var x, y := Names(b[1..]) + "/", Names(a[1..]) + "/";
      NamesSlash(b[1..]);
      NamesSlash(a[1..]);
      NamesCons(b);
      NamesCons(a);
      LeadingSlash(a[0] + y, b[0] + x);
      NameSlash(a[0], b[0], x, y);
      PrefixSlash(a[1..], b[1..]);
      IsPrefixCons(a, b);
    }
  }

  lemma NamesCons(a: seq<string>)
    requires a != []
    ensures Names(a) + "/" == "/" + (a[0] + (Names(a[1..]) + "/"))
  {
  }

  /** A leading separator on both sides changes nothing. */
  lemma LeadingSlash(u: string, v: string)
    ensures HasPrefix("/" + v, "/" + u) <==> HasPrefix(v, u)
  {
    var p, q := "/" + v, "/" + u;
    if HasPrefix(v, u) {
      assert p[..|q|] == "/" + v[..|u|];
    }
    if HasPrefix(p, q) {
      assert v[..|u|] == p[..|q|][1..];
    }
  }

  lemma IsPrefixCons(a: seq<string>, b: seq<string>)
    requires a != [] && b != []
    ensures IsPrefix(a, b) <==> a[0] == b[0] && IsPrefix(a[1..], b[1..])
  {
    if IsPrefix(a, b) {
      assert b[1..][..|a| - 1] == b[..|a|][1..];
    }
    if a[0] == b[0] && IsPrefix(a[1..], b[1..]) {
      assert b[..|a|] == [b[0]] + b[1..][..|a| - 1];
    }
  }

  /** A text followed by a separator leads another so followed exactly when it leads it with one, or is it. */
  lemma SlashLead(s: string, p: string)
    ensures HasPrefix(s + "/", p + "/") <==> HasPrefix(s, p + "/") || s == p
  {
    if HasPrefix(s + "/", p + "/") && |p| < |s| {
      assert (s + "/")[..|p| + 1] == s[..|p| + 1];
    }
    if HasPrefix(s + "/", p + "/") && |p| == |s| {
      assert s == (s + "/")[..|p|] == (p + "/")[..|p|] == p;
    }
    if HasPrefix(s, p + "/") {
      assert (s + "/")[..|p| + 1] == s[..|p| + 1];
    }
  }

  /**
   * The containment test "equal to the directory, or below it with a separator" on the texts
   * of two cleaned absolute paths is the test that the directory's names lead the other's,
   * as long as the directory is not the root itself.
   */
  lemma Contained(dir: seq<string>, p: seq<string>)
    requires AllPlain(dir) && AllPlain(p) && dir != []
    ensures HasPrefix(Render(p), Render(dir) + "/") || Render(p) == Render(dir) <==> IsPrefix(dir, p)
  {
    PrefixSlash(dir, p);
    SlashLead(Names(p), Names(dir));
    if p == [] {
      assert |Names(dir)| >= 2;
    }
  }

  /** The root itself contains nothing but itself under that test. */
  lemma RootContainsOnlyItself(p: seq<string>)
    requires AllPlain(p)
    ensures HasPrefix(Render(p), Render([]) + "/") || Render(p) == Render([]) <==> p == []
  {
    if p != [] {
      assert Render(p) == "/" + p[0] + Names(p[1..]);
      assert Render(p)[1] == p[0][0];
      assert p[0][0] in p[0];
    }
  }
}
