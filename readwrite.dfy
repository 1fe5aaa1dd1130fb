/** Reading the inputs: splitting a line into whitespace-separated words,
    the key/value rule of the parameter file and the row rule of the XYZ
    particle file. Streams are replaced by the sequence of lines read. */
module ReadWrite {
  import opened Base

  // ---------------------------------------------------------------------
  // Words

  /** isspace in the C locale: space, tab, newline, vertical tab, form feed
      and carriage return. */
  predicate IsSpace(c: char)
  {
    c == ' ' || c == '\t' || c == '\n' || c == 11 as char || c == 12 as char || c == '\r'
  }

  /** std::find_if(s.begin() + i, s.end(), not_space) as a position. */
  function FirstNonSpace(s: string, i: nat): (k: nat)
    requires i <= |s|
    ensures i <= k <= |s|
    ensures forall m :: i <= m < k ==> IsSpace(s[m])
    ensures k < |s| ==> !IsSpace(s[k])
    decreases |s| - i
  {
    if i == |s| || !IsSpace(s[i]) then i else FirstNonSpace(s, i + 1)
  }

  /** std::find_if(s.begin() + i, s.end(), space) as a position. */
  function FirstSpace(s: string, i: nat): (k: nat)
    requires i <= |s|
    ensures i <= k <= |s|
    ensures forall m :: i <= m < k ==> !IsSpace(s[m])
    ensures k < |s| ==> IsSpace(s[k])
    decreases |s| - i
  {
    if i == |s| || IsSpace(s[i]) then i else FirstSpace(s, i + 1)
  }

  /** The number of characters before the first space. */
  function WordLength(s: string): (n: nat)
    ensures n <= |s|
  {
    if |s| == 0 || IsSpace(s[0]) then 0 else 1 + WordLength(s[1..])
  }

  /** The words of s: maximal runs of characters that are not spaces, left
      to right. */
  function Words(s: string): seq<string>
    decreases |s|
  {
    if |s| == 0 then []
    else if IsSpace(s[0]) then Words(s[1..])
    else
      var n := WordLength(s);
      [s[..n]] + Words(s[n..])
  }

  /** s with every space removed. */
  function RemoveSpaces(s: string): string
  {
    if |s| == 0 then [] else (if IsSpace(s[0]) then [] else [s[0]]) + RemoveSpaces(s[1..])
  }

  /** The words of ws, joined end to end. */
  function Concat(ws: seq<string>): string
  {
    if |ws| == 0 then [] else ws[0] + Concat(ws[1..])
  }

  /** The words of ws separated by single blanks. */
  function Join(ws: seq<string>): string
  {
    if |ws| == 0 then [] else if |ws| == 1 then ws[0] else ws[0] + " " + Join(ws[1..])
  }

  /** A word is non-empty and holds no space. */
  predicate IsWord(w: string)
  {
    |w| > 0 && forall k :: 0 <= k < |w| ==> !IsSpace(w[k])
  }

  lemma {:induction false} WordLengthOfRun(t: string, k: nat)
    requires k <= |t|
    requires forall m :: 0 <= m < k ==> !IsSpace(t[m])
    requires k == |t| || IsSpace(t[k])
    ensures WordLength(t) == k
    decreases k
  {
    if k > 0 {
      WordLengthOfRun(t[1..], k - 1);
    }
  }

  lemma {:induction false} SkipSpaces(s: string, i: nat)
    requires i <= |s|
    ensures Words(s[i..]) == Words(s[FirstNonSpace(s, i)..])
    decreases |s| - i
  {
    if i < |s| && IsSpace(s[i]) {
      assert s[i..][1..] == s[i + 1..];
      SkipSpaces(s, i + 1);
    }
  }

  lemma WordsAtWord(t: string)
    requires |t| > 0 && !IsSpace(t[0])
    ensures Words(t) == [t[..WordLength(t)]] + Words(t[WordLength(t)..])
  {
  }

  /** The word starting at a ends where find_if finds the next space. */
  lemma {:induction false} WordLengthFirstSpace(s: string, a: nat)
    requires a <= |s|
    ensures WordLength(s[a..]) == FirstSpace(s, a) - a
    decreases |s| - a
  {
    if a < |s| && !IsSpace(s[a]) {
      assert s[a..][1..] == s[a + 1..];
      WordLengthFirstSpace(s, a + 1);
    }
  }

  lemma TakeWord(s: string, a: nat)
    requires a < |s| && !IsSpace(s[a])
    ensures Words(s[a..]) == [s[a..FirstSpace(s, a)]] + Words(s[FirstSpace(s, a)..])
  {
    var b := FirstSpace(s, a);
    var t := s[a..];
    var k := b - a;
    WordLengthFirstSpace(s, a);
    WordsAtWord(t);
    assert Words(t) == [t[..k]] + Words(t[k..]);
    assert t[..k] == s[a..b];
    assert t[k..] == s[b..];
  }

  /** split: skips blanks, copies the next word, and repeats until the end
      of the string. */
  method Split(str: string) returns (ret: seq<string>)
    ensures ret == Words(str)
  {
    ret := [];
    var i := 0;
    while i != |str|
      invariant 0 <= i <= |str|
      invariant ret + Words(str[i..]) == Words(str)
      decreases |str| - i
    {
      SkipSpaces(str, i);
      i := FirstNonSpace(str, i);
      var j := FirstSpace(str, i);
      if i != |str| {
        TakeWord(str, i);
        ret := ret + [str[i..j]];
      } else {
        assert Words(str[i..]) == [];
      }
      i := j;
    }
    assert str[i..] == [];
  }

  /** Every word is non-empty and free of spaces. */
  lemma {:induction false} WordsAreWords(s: string)
    ensures forall k :: 0 <= k < |Words(s)| ==> IsWord(Words(s)[k])
    decreases |s|
  {
    if |s| > 0 {
      if IsSpace(s[0]) {
        WordsAreWords(s[1..]);
      } else {
        var n := WordLength(s);
        WordRun(s);
        WordsAreWords(s[n..]);
      }
    }
  }

  lemma {:induction false} WordRun(s: string)
    ensures forall m :: 0 <= m < WordLength(s) ==> !IsSpace(s[m])
    ensures WordLength(s) < |s| ==> IsSpace(s[WordLength(s)])
    ensures |s| > 0 && !IsSpace(s[0]) ==> WordLength(s) > 0
  {
    if |s| > 0 && !IsSpace(s[0]) {
      WordRun(s[1..]);
    }
  }

  lemma {:induction false} RemoveSpacesRun(s: string, k: nat)
    requires k <= |s| && forall m :: 0 <= m < k ==> !IsSpace(s[m])
    ensures RemoveSpaces(s) == s[..k] + RemoveSpaces(s[k..])
    decreases k
  {
    if k > 0 {
      RemoveSpacesRun(s[1..], k - 1);
      assert s[..k] == [s[0]] + s[1..][..k - 1];
      assert s[1..][k - 1..] == s[k..];
    }
  }

  /** The words, joined, are the input with its spaces removed. */
  lemma {:induction false} ConcatWords(s: string)
    ensures Concat(Words(s)) == RemoveSpaces(s)
    decreases |s|
  {
    if |s| > 0 {
      if IsSpace(s[0]) {
        ConcatWords(s[1..]);
      } else {
        var n := WordLength(s);
        WordRun(s);
        RemoveSpacesRun(s, n);
        ConcatWords(s[n..]);
        assert ([s[..n]] + Words(s[n..]))[1..] == Words(s[n..]);
      }
    }
  }

  /** A string has no words exactly when all its characters are spaces. */
  lemma {:induction false} NoWordsAllSpace(s: string)
    ensures Words(s) == [] <==> forall k :: 0 <= k < |s| ==> IsSpace(s[k])
    decreases |s|
  {
    if |s| > 0 {
      NoWordsAllSpace(s[1..]);
      if IsSpace(s[0]) {
        forall k | 1 <= k < |s| ensures s[k] == s[1..][k - 1] { }
      }
    }
  }

  /** Splitting words joined by single blanks gives the words back. */
  lemma {:induction false} SplitJoin(ws: seq<string>)
    requires forall k :: 0 <= k < |ws| ==> IsWord(ws[k])
    ensures Words(Join(ws)) == ws
    decreases |ws|
  {
    if |ws| == 1 {
      var w := ws[0];
      WordLengthOfRun(w, |w|);
      assert w[..|w|] == w && w[|w|..] == [];
    } else if |ws| > 1 {
      var w, rest := ws[0], Join(ws[1..]);
      var s := w + " " + rest;
      WordLengthOfRun(s, |w|);
      assert s[..|w|] == w;
      assert s[|w|..] == " " + rest;
      assert (" " + rest)[1..] == rest;
      SplitJoin(ws[1..]);
    }
  }

  // ---------------------------------------------------------------------
  // The parameter file

  /** A comment line: '#' as its first character. An empty line reads the
      terminating NUL at position 0 and is not a comment. */
  predicate IsComment(line: string)
  {
    |line| > 0 && line[0] == '#'
  }

  /** The effect of one line of the parameter file. */
  function ParamLine(params: map<string, string>, line: string): map<string, string>
  {
    if IsComment(line) then params
    else
      var spline := Words(line);
      if |spline| == 2 then params[spline[0] := spline[1]] else params
  }

  /** The parameters after reading the lines in order. */
  function ParamsOf(lines: seq<string>): map<string, string>
  {
    if |lines| == 0 then map[] else ParamLine(ParamsOf(lines[..|lines| - 1]), lines[|lines| - 1])
  }

  /** readparams: applies the line rule to every line read. */
  method ReadParams(lines: seq<string>) returns (params: map<string, string>)
    ensures params == ParamsOf(lines)
  {
    params := map[];
    var n := 0;
    while n != |lines|
      invariant 0 <= n <= |lines|
      invariant params == ParamsOf(lines[..n])
    {
      var sline := lines[n];
      assert lines[..n + 1][..n] == lines[..n];
      if !(|sline| > 0 && sline[0] == '#') {
        var spline := Split(sline);
        if |spline| == 2 {
          params := params[spline[0] := spline[1]];
        }
      }
      n := n + 1;
    }
    assert lines[..n] == lines;
  }

  /** The line is not a comment and has exactly the two words key, value. */
  predicate Sets(line: string, key: string)
  {
    !IsComment(line) && |Words(line)| == 2 && Words(line)[0] == key
  }

  /** A key is present exactly when some line sets it, and its value is the
      one the last such line gives. */
  lemma {:induction false} ParamsLastWins(lines: seq<string>, key: string)
    ensures key in ParamsOf(lines) <==> exists i :: 0 <= i < |lines| && Sets(lines[i], key)
    ensures key in ParamsOf(lines) ==>
              exists i :: 0 <= i < |lines| && Sets(lines[i], key) && ParamsOf(lines)[key] == Words(lines[i])[1]
                          && forall j :: i < j < |lines| ==> !Sets(lines[j], key)
    decreases |lines|
  {
    if |lines| > 0 {
      var n := |lines| - 1;
      var prefix := lines[..n];
      ParamsLastWins(prefix, key);
      assert forall i :: 0 <= i < n ==> lines[i] == prefix[i];
      if Sets(lines[n], key) {
        assert ParamsOf(lines)[key] == Words(lines[n])[1];
      } else {
        assert key in ParamsOf(lines) <==> key in ParamsOf(prefix);
        if key in ParamsOf(prefix) {
          assert ParamsOf(lines)[key] == ParamsOf(prefix)[key];
          var i :| 0 <= i < n && Sets(prefix[i], key) && ParamsOf(prefix)[key] == Words(prefix[i])[1]
                   && forall j :: i < j < n ==> !Sets(prefix[j], key);
          assert Sets(lines[i], key);
        }
      }
    }
  }

  // ---------------------------------------------------------------------
  // The XYZ file

  /** The number of columns of a particle row: x, y, z, and a leading
      symbol when symbols are read. */
  function Columns(symbols: bool): nat
  {
    if symbols then 4 else 3
  }

  /** A row is accepted when it has exactly the expected number of words;
      blank and malformed rows are skipped. */
  predicate Accepts(line: string, symbols: bool)
  {
    |Words(line)| == Columns(symbols)
  }

  /** The particle a row gives: the previous particle with its position
      replaced, and, when symbols are read, its symbol replaced by the first
      character of the first word and (with types) its type set to 1 for 'O'
      and 0 for any other symbol. */
  function RowParticle(par: Particle, line: string, symbols: bool, gettypes: bool,
                       atof: string -> real): (p: Particle)
    requires Accepts(line, symbols)
    ensures p.vel == par.vel && p.mass == par.mass
    ensures !symbols ==> p.symbol == par.symbol && p.ptype == par.ptype
  {
    var spline := Words(line);
    WordsAreWords(line);
    var i := if symbols then 1 else 0;
    var p1 := if symbols then par.(symbol := spline[0][0]) else par;
    var p2 := if symbols && gettypes then p1.(ptype := if p1.symbol == 'O' then 1 else 0) else p1;
    p2.(pos := Vec3(atof(spline[i]), atof(spline[i + 1]), atof(spline[i + 2])))
  }

  /** How many of the lines are accepted rows. */
  function AcceptedCount(lines: seq<string>, symbols: bool): nat
  {
    if |lines| == 0 then 0
    else AcceptedCount(lines[..|lines| - 1], symbols) + (if Accepts(lines[|lines| - 1], symbols) then 1 else 0)
  }

  /** The particle carried between rows and the particles stored, after
      reading the lines in order from par0. */
  function ReadRows(lines: seq<string>, symbols: bool, gettypes: bool, atof: string -> real,
                    par0: Particle): (r: (Particle, seq<Particle>))
    ensures |r.1| == AcceptedCount(lines, symbols)
  {
    if |lines| == 0 then (par0, [])
    else
      var prev := ReadRows(lines[..|lines| - 1], symbols, gettypes, atof, par0);
      var line := lines[|lines| - 1];
      if Accepts(line, symbols) then
        var p := RowParticle(prev.0, line, symbols, gettypes, atof);
        (p, prev.1 + [p])
      else prev
  }

  lemma {:induction false} AcceptedCountPrefix(lines: seq<string>, symbols: bool, k: nat)
    requires k <= |lines|
    ensures AcceptedCount(lines[..k], symbols) <= AcceptedCount(lines, symbols)
    decreases |lines| - k
  {
    if k < |lines| {
      AcceptedCountPrefix(lines, symbols, k + 1);
      assert lines[..k + 1][..k] == lines[..k];
    } else {
      assert lines[..k] == lines;
    }
  }

  /** Reading one more line: an accepted line adds the particle it gives,
      any other line changes nothing. */
  lemma ReadRowsStep(lines: seq<string>, n: nat, symbols: bool, gettypes: bool, atof: string -> real,
                     par0: Particle)
    requires n < |lines|
    ensures AcceptedCount(lines[..n + 1], symbols)
            == AcceptedCount(lines[..n], symbols) + (if Accepts(lines[n], symbols) then 1 else 0)
    ensures var prev := ReadRows(lines[..n], symbols, gettypes, atof, par0);
            ReadRows(lines[..n + 1], symbols, gettypes, atof, par0)
            == if Accepts(lines[n], symbols)
               then (RowParticle(prev.0, lines[n], symbols, gettypes, atof),
                     prev.1 + [RowParticle(prev.0, lines[n], symbols, gettypes, atof)])
               else prev
  {
    assert lines[..n + 1][..n] == lines[..n];
  }

  /** The two row checks of readxyz: a row that splits into no words, or
      into a number of words other than ncols, is skipped. */
  method RowChecks(sline: string, symbols: bool) returns (ok: bool)
    ensures ok == Accepts(sline, symbols)
  {
    var ncols := Columns(symbols);
    var spline := Split(sline);
    if |spline| == 0 {
      return false;
    }
    if |spline| != ncols {
      return false;
    }
    return true;
  }

  /** allpars[nread] = par: stores the row's particle after the ones read. */
  method StoreRow(a: array<Particle>, nread: nat, par: Particle)
    requires nread < a.Length
    modifies a
    ensures a[..nread + 1] == old(a[..nread]) + [par]
    ensures forall k :: nread < k < a.Length ==> a[k] == old(a[k])
  {
    a[nread] := par;
  }

  /** The row loop of readxyz: the particle array has npar value-initialised
      entries and accepted row number k is stored at position k. The source
      does not check the position, so there must be no more accepted rows
      than npar. */
  method ReadXyz(lines: seq<string>, npar: nat, symbols: bool, gettypes: bool, atof: string -> real,
                 par0: Particle) returns (allpars: seq<Particle>, nread: nat)
    requires AcceptedCount(lines, symbols) <= npar
    ensures nread == AcceptedCount(lines, symbols) && |allpars| == npar
    ensures allpars[..nread] == ReadRows(lines, symbols, gettypes, atof, par0).1
    ensures forall k :: nread <= k < npar ==> allpars[k] == ZeroParticle
  {
    var a := new Particle[npar](_ => ZeroParticle);
    var par := par0;
    nread := 0;
    var n := 0;
    while n != |lines|
      invariant 0 <= n <= |lines|
      invariant nread == AcceptedCount(lines[..n], symbols) <= npar
      invariant par == ReadRows(lines[..n], symbols, gettypes, atof, par0).0
      invariant a[..nread] == ReadRows(lines[..n], symbols, gettypes, atof, par0).1
      invariant forall k :: nread <= k < npar ==> a[k] == ZeroParticle
    {
      AcceptedCountPrefix(lines, symbols, n + 1);
      ReadRowsStep(lines, n, symbols, gettypes, atof, par0);
      var sline := lines[n];
      var ok := RowChecks(sline, symbols);
      n := n + 1;
      if !ok {
        continue;
      }
      par := RowParticle(par, sline, symbols, gettypes, atof);
      StoreRow(a, nread, par);
      nread := nread + 1;
    }
    assert lines[..n] == lines;
    allpars := a[..];
    assert allpars[..nread] == a[..nread];
  }

  /** Blank rows are never accepted. */
  lemma BlankRowSkipped(line: string, symbols: bool)
    requires forall k :: 0 <= k < |line| ==> IsSpace(line[k])
    ensures !Accepts(line, symbols)
  {
    NoWordsAllSpace(line);
  }
}
