/**
 * The breadcrumb trail of the four sidebar layouts: the pathname is split
 * on '/', empty segments are dropped, and crumb i links to the first i+1
 * segments. The landlord, tenant and admin layouts upper-case the first
 * character of a segment; the caretaker layout turns '-' into spaces and
 * upper-cases the first character of every word.
 */
module Breadcrumbs {
  import opened Text
  import Seqs

  /** `pathname.split('/').filter(Boolean)`. */
  function Segments(pathname: string): (r: seq<string>)
    ensures forall s :: s in r ==> s != "" && '/' !in s
  {
    SplitPiecesFree(pathname, '/');
    Seqs.Filter(Split(pathname, '/'), (s: string) => s != "")
  }

  // ---------------------------------------------------------------------
  // Names.

  /** `crumb.charAt(0).toUpperCase() + crumb.slice(1)`. */
  function Capitalise(seg: string): (r: string)
    ensures |r| == |seg|
    ensures seg != "" ==> r[0] == UpperChar(seg[0]) && r[1..] == seg[1..]
  {
    if seg == "" then "" else [UpperChar(seg[0])] + seg[1..]
  }

  /** `crumb.replace(/-/g, ' ')`. */
  function Dashless(seg: string): (r: string)
    ensures |r| == |seg| && '-' !in r
    ensures forall i :: 0 <= i < |seg| ==> r[i] == (if seg[i] == '-' then ' ' else seg[i])
  {
    seq(|seg|, i requires 0 <= i < |seg| => if seg[i] == '-' then ' ' else seg[i])
  }

  /** `\b\w` matches at `i`: a word character with no word character just before it. */
  predicate StartsWord(s: string, i: int)
    requires 0 <= i < |s|
  {
    IsWordChar(s[i]) && (i == 0 || !IsWordChar(s[i - 1]))
  }

  /** `.replace(/\b\w/g, l => l.toUpperCase())`. */
  function UpperWordStarts(s: string): (r: string)
    ensures |r| == |s|
    ensures forall i :: 0 <= i < |s| ==> r[i] == (if StartsWord(s, i) then UpperChar(s[i]) else s[i])
  {
    seq(|s|, i requires 0 <= i < |s| => if StartsWord(s, i) then UpperChar(s[i]) else s[i])
  }

  /** The caretaker layout's name: dashes become spaces, then every word starts upper-case. */
  function Prettify(seg: string): (r: string)
    ensures |r| == |seg| && '-' !in r
    ensures forall i :: 0 <= i < |seg| && seg[i] == '-' ==> r[i] == ' '
    ensures forall i :: 0 <= i < |seg| && seg[i] != '-' && !StartsWord(Dashless(seg), i) ==> r[i] == seg[i]
    ensures forall i :: 0 <= i < |seg| && StartsWord(Dashless(seg), i) ==> r[i] == UpperChar(seg[i])
  {
    var d := Dashless(seg);
    var r := UpperWordStarts(d);
    assert forall i :: 0 <= i < |r| ==> r[i] != '-' by {
      forall i | 0 <= i < |r| ensures r[i] != '-' {
        assert d[i] != '-';
        assert d[i] in d;
      }
    }
    r
  }

  /** In the caretaker names, the character after each dash starts a word. */
  lemma AfterDashStartsWord(seg: string, i: nat)
    requires 0 < i < |seg| && seg[i - 1] == '-' && IsWordChar(seg[i])
    ensures StartsWord(Dashless(seg), i)
    ensures Prettify(seg)[i - 1] == ' ' && Prettify(seg)[i] == UpperChar(seg[i])
  {
  }

  // ---------------------------------------------------------------------
  // The trail.

  /** Which of the two naming rules a layout uses. */
  datatype Style = FirstLetter | EachWord

  function NameFor(seg: string, style: Style): string {
    match style
    case FirstLetter => Capitalise(seg)
    case EachWord => Prettify(seg)
  }

  datatype Crumb = Crumb(name: string, path: string)

  /** `'/' + array.slice(0, index + 1).join('/')`. */
  function PathTo(segs: seq<string>, i: nat): string
    requires i < |segs|
  {
    "/" + Join(segs[..i + 1], '/')
  }

  /** The breadcrumb of a pathname: one crumb per non-empty segment. */
  function Crumbs(pathname: string, style: Style): (r: seq<Crumb>)
    ensures |r| == |Segments(pathname)|
    ensures forall i :: 0 <= i < |r| ==> r[i].path == PathTo(Segments(pathname), i)
    ensures forall i :: 0 <= i < |r| ==> r[i].name == NameFor(Segments(pathname)[i], style)
    ensures forall i :: 0 <= i < |r| ==> |r[i].name| == |Segments(pathname)[i]|
  {
    var segs := Segments(pathname);
    seq(|segs|, i requires 0 <= i < |segs| => Crumb(NameFor(segs[i], style), PathTo(segs, i)))
  }

  /** The home page has no crumbs. */
  lemma RootHasNoCrumbs(style: Style)
    ensures Crumbs("/", style) == []
  {
    assert Split("/", '/') == ["", ""] by {
      assert "/"[1..] == "";
    }
    var p := (s: string) => s != "";
    assert Seqs.Filter(["", ""], p) == [] by {
      assert ["", ""][1..] == [""];
      assert [""][1..] == [];
    }
  }

  /** Each crumb's path is the previous one followed by '/' and the next segment. */
  lemma PathStep(segs: seq<string>, i: nat)
    requires i + 1 < |segs|
    ensures PathTo(segs, i + 1) == PathTo(segs, i) + "/" + segs[i + 1]
  {
    assert segs[..i + 2] == segs[..i + 1] + [segs[i + 1]];
    JoinSnoc(segs[..i + 1], segs[i + 1], '/');
  }

  /**
   * Every path is a proper prefix of every later one, so no two crumbs
   * share a path.
   */
  lemma {:induction false} PathsGrow(segs: seq<string>, i: nat, j: nat)
    requires i < j < |segs|
    ensures |PathTo(segs, i)| < |PathTo(segs, j)|
    ensures PathTo(segs, j)[..|PathTo(segs, i)|] == PathTo(segs, i)
    ensures PathTo(segs, i) != PathTo(segs, j)
    decreases j - i
  {
    PathStep(segs, j - 1);
    if i < j - 1 {
      PathsGrow(segs, i, j - 1);
      var a, b := PathTo(segs, i), PathTo(segs, j - 1);
      assert PathTo(segs, j)[..|b|] == b;
      assert PathTo(segs, j)[..|a|] == b[..|a|];
    }
  }

  /** The crumb paths of a pathname are pairwise distinct. */
  lemma CrumbPathsDistinct(pathname: string, style: Style)
    ensures forall i, j :: 0 <= i < j < |Crumbs(pathname, style)| ==>
      Crumbs(pathname, style)[i].path != Crumbs(pathname, style)[j].path
  {
    forall i, j | 0 <= i < j < |Crumbs(pathname, style)|
      ensures Crumbs(pathname, style)[i].path != Crumbs(pathname, style)[j].path
    {
      PathsGrow(Segments(pathname), i, j);
    }
  }

  /**
   * A pathname already in normal form (a '/' before each non-empty
   * segment, nothing doubled, no trailing '/') keeps its segments.
   */
  lemma SegmentsOfNormal(segs: seq<string>)
    requires |segs| >= 1 && forall s :: s in segs ==> s != "" && '/' !in s
    ensures Segments("/" + Join(segs, '/')) == segs
  {
    var j := Join(segs, '/');
    SplitJoin(segs, '/');
    SplitPrefix("", j, '/');
    assert "" + ['/'] + j == "/" + j;
    assert Split("/" + j, '/') == [""] + segs;
    var p := (s: string) => s != "";
    assert Seqs.Filter([""] + segs, p) == Seqs.Filter(segs, p) by {
      assert ([""] + segs)[1..] == segs;
    }
    assert forall i :: 0 <= i < |segs| ==> p(segs[i]) by {
      forall i | 0 <= i < |segs| ensures p(segs[i]) {
        assert segs[i] in segs;
      }
    }
    Seqs.FilterAll(segs, p);
  }

  /**
   * The last crumb links to the normal form of the pathname, and the
   * trail of that path is the trail itself: a '//' or a trailing '/'
   * changes nothing.
   */
  lemma LastCrumbIsNormalPath(pathname: string, style: Style)
    requires Crumbs(pathname, style) != []
    ensures var segs := Segments(pathname);
      Crumbs(pathname, style)[|segs| - 1].path == "/" + Join(segs, '/')
    ensures Crumbs(Crumbs(pathname, style)[|Segments(pathname)| - 1].path, style) == Crumbs(pathname, style)
  {
    var segs := Segments(pathname);
    assert segs[..|segs|] == segs;
    SegmentsOfNormal(segs);
  }

  /** Every crumb but the last is rendered as a link. */
  predicate IsLink(crumbs: seq<Crumb>, i: int) {
    0 <= i < |crumbs| - 1
  }

  /**
   * The links of a trail are exactly its first |crumbs| - 1 crumbs, and the
   * last crumb, the current page, is plain text.
   */
  lemma LinksBeforeLast(pathname: string, style: Style)
    ensures var c := Crumbs(pathname, style);
      (forall i :: 0 <= i < |c| ==> (IsLink(c, i) <==> i != |c| - 1)) && (c != [] ==> !IsLink(c, |c| - 1))
  {
  }
}
