/** Writing an entry with `String()` and reading the ledger back with
    `ParseReleases` (pkg/releases/releases.go): the last entry's header fields, and
    each registry language's version and path, come back unchanged. */
module RoundTrip {
  import opened Wrappers
  import opened Text
  import opened SemVer
  import opened MapOrder
  import opened ReleaseFormat
  import opened ReleaseParse

  // ---- Only the last block is read.

  /** A leading newline does not change the header match. */
  lemma MatchHeaderShift(b: string)
    ensures MatchHeader("\n" + b) == MatchHeader(b)
  {
    assert ("\n" + b)[0] == '\n';
    NotStartsAt("\n" + b, 0, TitleMark, 0);
    LeftmostShift('\n', b, HeaderAt);
  }

  /** A leading newline does not change an ecosystem match. */
  lemma EcoMatchShift(b: string, e: Registry)
    ensures EcoMatch("\n" + b, e) == EcoMatch(b, e)
  {
    NoEcoAtNewline("\n" + b, e);
    LeftmostShift('\n', b, EcoPattern(e));
  }

  /** No ecosystem line starts with a newline. */
  lemma NoEcoAtNewline(s: string, e: Registry)
    requires |s| > 0 && s[0] == '\n'
    ensures EcoPattern(e)(s).None?
  {
    assert !StartsAt(s, 0, PatternOf(e).open) by { assert s[0] != PatternOf(e).open[0]; }
  }

  /** What `ParseReleases` makes of a single block. */
  function ParseBlock(b: string): Result<ReleasesInfo, ParseError> {
    match MatchHeader(b)
    case None => Failure(LastReleaseUnparsable)
    case Some(h) => Success(ReleasesInfo(h.title, h.docVersion, h.toolVersion, h.docLocation, Languages(b)))
  }

  /** A leading newline does not change what a block parses to. */
  lemma ParseBlockShift(b: string)
    ensures ParseBlock("\n" + b) == ParseBlock(b)
  {
    MatchHeaderShift(b);
    EcoMatchShift(b, Npm);
    EcoMatchShift(b, PyPI);
    EcoMatchShift(b, GoModule);
    EcoMatchShift(b, Composer);
  }

  /** Whatever the ledger held before, once a blank line and a separator-free block are
      appended, parsing the ledger is parsing that block alone. */
  lemma OnlyLastBlock(x: string, b: string)
    requires NoSep(b) && |b| > 0 && b[0] != '\n'
    ensures ParseSpec(x + "\n\n" + b) == ParseBlock(b)
  {
    LastPieceOfAppend(x, b);
    ParseBlockShift(b);
  }

  // ---- The header pattern on a rendered header.

  lemma ToolEndIs(t: string, i: nat, n: nat)
    requires i <= n < |t| && t[n] == ' '
    requires forall k :: i <= k < n ==> t[k] != ' '
    ensures ToolEnd(t, i) == Some(n)
  {
    FindIs(i, |t|, (n': nat) => n' < |t| && t[n'] == ' ', n);
  }

  lemma LocEndIs(t: string, i: nat, m: nat, n: nat)
    requires i <= m && StartsAt(t, m, ToolMark) && ToolEnd(t, m + |ToolMark|) == Some(n)
    requires forall k :: i <= k < m ==> t[k] != '\n'
    ensures LocEnd(t, i) == Some(m)
  {
    var p := (m': nat) => StartsAt(t, m', ToolMark) && ToolEnd(t, m' + |ToolMark|).Some?;
    forall k | i <= k < m ensures !p(k) {
      assert !StartsAt(t, k, ToolMark) by { assert t[k] != ToolMark[0]; }
    }
    FindIs(i, |t|, p, m);
  }

  lemma DocEndIs(t: string, i: nat, j: nat)
    requires i <= j < |t| && t[j] == ' ' && LocEnd(t, j + 1).Some?
    requires forall k :: i <= k < j ==> t[k] != ' '
    ensures DocEnd(t, i) == Some(j)
  {
    FindIs(i, |t|, (j': nat) => j' < |t| && t[j'] == ' ' && LocEnd(t, j' + 1).Some?, j);
  }

  lemma TitleEndIs(t: string, i: nat, k: nat)
    requires i <= k && StartsAt(t, k, DocMark) && DocEnd(t, k + |DocMark|).Some?
    requires forall x :: i <= x < k ==> t[x] != '\n'
    ensures TitleEnd(t, i) == Some(k)
  {
    var p := (k': nat) => StartsAt(t, k', DocMark) && DocEnd(t, k' + |DocMark|).Some?;
    forall x | i <= x < k ensures !p(x) {
      assert !StartsAt(t, x, DocMark) by { assert t[x] != DocMark[0]; }
    }
    FindIs(i, |t|, p, k);
  }

  /** The header text `String()` writes, up to the tool version and the space after it. */
  function HeaderText(title: string, dv: string, dl: string, tv: string): string {
    TitleMark + (title + (DocMark + (dv + (" " + (dl + (ToolMark + (tv + " ")))))))
  }

  /** The header pattern recovers the four fields of a rendered header when the title
      and document location have no newline and the two versions no space. */
  lemma HeaderAtRendered(title: string, dv: string, dl: string, tv: string, rest: string)
    requires '\n' !in title && '\n' !in dl && ' ' !in dv && ' ' !in tv
    ensures HeaderAt(HeaderText(title, dv, dl, tv) + rest) == Some(HeaderFields(title, dv, dl, tv))
  {
    var t := HeaderText(title, dv, dl, tv) + rest;
    var k := |TitleMark| + |title|;
    var d := k + |DocMark|;
    var j := d + |dv|;
    var m := j + 1 + |dl|;
    var n := m + |ToolMark| + |tv|;
    HeaderTextSlices(title, dv, dl, tv, rest, t, k, j, m, n);
    NotInSlice(t, m + |ToolMark|, n, ' ');
    NotInSlice(t, j + 1, m, '\n');
    NotInSlice(t, d, j, ' ');
    NotInSlice(t, |TitleMark|, k, '\n');
    HeaderAtMarks(t, k, j, m, n);
  }

  /** Where each part of a rendered header sits. */
  lemma HeaderTextSlices(title: string, dv: string, dl: string, tv: string, rest: string, t: string, k: nat, j: nat, m: nat, n: nat)
    requires t == HeaderText(title, dv, dl, tv) + rest
    requires k == |TitleMark| + |title| && j == k + |DocMark| + |dv| && m == j + 1 + |dl| && n == m + |ToolMark| + |tv|
    ensures n < |t| && StartsAt(t, 0, TitleMark) && StartsAt(t, k, DocMark) && StartsAt(t, m, ToolMark)
    ensures t[|TitleMark|..k] == title && t[k + |DocMark|..j] == dv && t[j + 1..m] == dl && t[m + |ToolMark|..n] == tv
    ensures t[j] == ' ' && t[n] == ' '
  {
    HeaderTextRest(title, dv, dl, tv, rest);
    assert Rest(t, 0, t);
    HeaderLaid(t, TitleMark, title, DocMark, dv, dl, ToolMark, tv, rest, k, j, m, n);
  }

  /** A rendered header and what follows it, one piece after another. */
  lemma HeaderTextRest(title: string, dv: string, dl: string, tv: string, rest: string)
    ensures HeaderText(title, dv, dl, tv) + rest ==
            TitleMark + (title + (DocMark + (dv + (" " + (dl + (ToolMark + (tv + (" " + rest))))))))
  {
    Regroup(tv, " ", rest);
    Regroup(ToolMark, tv + " ", rest);
    Regroup(dl, ToolMark + (tv + " "), rest);
    Regroup(" ", dl + (ToolMark + (tv + " ")), rest);
    Regroup(dv, " " + (dl + (ToolMark + (tv + " "))), rest);
    Regroup(DocMark, dv + (" " + (dl + (ToolMark + (tv + " ")))), rest);
    Regroup(title, DocMark + (dv + (" " + (dl + (ToolMark + (tv + " "))))), rest);
    Regroup(TitleMark, title + (DocMark + (dv + (" " + (dl + (ToolMark + (tv + " ")))))), rest);
  }

  /** A piece `x` at `p`, then a piece `y`, then `r`. */
  lemma LayPair(t: string, p: nat, x: string, y: string, r: string, q: nat, z: nat)
    requires Rest(t, p, x + (y + r)) && q == p + |x| && z == q + |y|
    ensures StartsAt(t, p, x) && z <= |t| && t[q..z] == y && Rest(t, z, r)
  {
    AtSuffix(t, p, x, y + r);
    AtSuffix(t, q, y, r);
    SliceIs(t, q, z, y);
  }

  /** The pieces of a header laid one after another from the start of `t`. */
  lemma HeaderLaid(t: string, a: string, title: string, b: string, dv: string, dl: string, c: string, tv: string, rest: string,
                   k: nat, j: nat, m: nat, n: nat)
    requires Rest(t, 0, a + (title + (b + (dv + (" " + (dl + (c + (tv + (" " + rest)))))))))
    requires k == |a| + |title| && j == k + |b| + |dv| && m == j + 1 + |dl| && n == m + |c| + |tv|
    ensures n < |t| && StartsAt(t, 0, a) && StartsAt(t, k, b) && StartsAt(t, m, c)
    ensures t[|a|..k] == title && t[k + |b|..j] == dv && t[j + 1..m] == dl && t[m + |c|..n] == tv
    ensures t[j] == ' ' && t[n] == ' '
  {
    LayTwo(t, 0, a, title, b, dv, " " + (dl + (c + (tv + (" " + rest)))), |a|, k, k + |b|, j);
    LayTwo(t, j, " ", dl, c, tv, " " + rest, j + 1, m, m + |c|, n);
    AtSuffix(t, n, " ", rest);
    CharAt(t, j, " ", 0);
    CharAt(t, n, " ", 0);
  }

  /** Two pieces laid as by `LayPair`, one pair after the other. */
  lemma LayTwo(t: string, p: nat, x: string, y: string, x2: string, y2: string, r: string, q: nat, z: nat, q2: nat, z2: nat)
    requires Rest(t, p, x + (y + (x2 + (y2 + r))))
    requires q == p + |x| && z == q + |y| && q2 == z + |x2| && z2 == q2 + |y2|
    ensures StartsAt(t, p, x) && t[q..z] == y && StartsAt(t, z, x2) && z2 <= |t| && t[q2..z2] == y2 && Rest(t, z2, r)
  {
    LayPair(t, p, x, y, x2 + (y2 + r), q, z);
    LayPair(t, z, x2, y2, r, q2, z2);
  }

  /** The header pattern at the start of `t`, once the three marks and the two
      version-ending spaces are known to sit at `k`, `m`, `j` and `n`, with no
      newline in the free-text captures and no space in the version captures. */
  lemma HeaderAtMarks(t: string, k: nat, j: nat, m: nat, n: nat)
    requires StartsAt(t, 0, TitleMark) && |TitleMark| <= k && StartsAt(t, k, DocMark)
    requires k + |DocMark| <= j < |t| && t[j] == ' ' && j + 1 <= m && StartsAt(t, m, ToolMark)
    requires m + |ToolMark| <= n < |t| && t[n] == ' '
    requires forall x :: |TitleMark| <= x < k ==> t[x] != '\n'
    requires forall x :: k + |DocMark| <= x < j ==> t[x] != ' '
    requires forall x :: j + 1 <= x < m ==> t[x] != '\n'
    requires forall x :: m + |ToolMark| <= x < n ==> t[x] != ' '
    ensures HeaderAt(t) == Some(HeaderFields(t[|TitleMark|..k], t[k + |DocMark|..j], t[j + 1..m], t[m + |ToolMark|..n]))
  {
    ToolEndIs(t, m + |ToolMark|, n);
    LocEndIs(t, j + 1, m, n);
    DocEndIs(t, k + |DocMark|, j);
    TitleEndIs(t, |TitleMark|, k);
    HeaderAtIs(t, k, j, m, n);
  }

  /** The header captures, once the end of each lazy group is known. */
  lemma HeaderAtIs(t: string, k: nat, j: nat, m: nat, n: nat)
    requires StartsAt(t, 0, TitleMark) && TitleEnd(t, |TitleMark|) == Some(k)
    requires DocEnd(t, k + |DocMark|) == Some(j) && LocEnd(t, j + 1) == Some(m) && ToolEnd(t, m + |ToolMark|) == Some(n)
    ensures HeaderAt(t) == Some(HeaderFields(t[|TitleMark|..k], t[k + |DocMark|..j], t[j + 1..m], t[m + |ToolMark|..n]))
  {
  }

  /** The header pattern matches a block that starts with a rendered header there. */
  lemma MatchHeaderRendered(title: string, dv: string, dl: string, tv: string, rest: string)
    requires '\n' !in title && '\n' !in dl && ' ' !in dv && ' ' !in tv
    ensures MatchHeader(HeaderText(title, dv, dl, tv) + rest) == Some(HeaderFields(title, dv, dl, tv))
  {
    var t := HeaderText(title, dv, dl, tv) + rest;
    HeaderAtRendered(title, dv, dl, tv, rest);
    assert t[0..] == t;
    LeftmostAt(t, HeaderAt, 0);
  }
}
