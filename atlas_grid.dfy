/**
 * The grid size of a sprite atlas, read from its file name: an atlas stored
 * as `<name>_<cols>x<rows>.<ext>` is cut into `cols` by `rows` cells, any
 * other name gives a single cell.
 */
module AtlasGrid {
  import opened Wrappers

  /** The index of the last `c` in `s`. */
  function LastIndex(s: string, c: char): (r: Option<nat>)
    ensures r.None? <==> c !in s
    ensures r.Some? ==> r.value < |s| && s[r.value] == c && c !in s[r.value + 1..]
  {
    if s == [] then None
    else if s[|s| - 1] == c then Some(|s| - 1)
    else
      var r := LastIndex(s[..|s| - 1], c);
      assert s == s[..|s| - 1] + [s[|s| - 1]];
      if r.Some? then
        assert s[r.value + 1..] == s[..|s| - 1][r.value + 1..] + [s[|s| - 1]];
        r
      else r
  }

  /** The index of the first `c` in `s`. */
  function FirstIndex(s: string, c: char): (r: Option<nat>)
    ensures r.None? <==> c !in s
    ensures r.Some? ==> r.value < |s| && s[r.value] == c && c !in s[..r.value]
  {
    if s == [] then None
    else if s[0] == c then Some(0)
    else
      match FirstIndex(s[1..], c)
      case None => None
      case Some(i) =>
        assert s[..i + 1] == [s[0]] + s[1..][..i];
        Some(i + 1)
  }

  /** The last piece of `s.split(c)`: the longest suffix of `s` free of `c`. */
  function AfterLast(s: string, c: char): (r: string)
    ensures c !in r
    ensures |r| <= |s| && r == s[|s| - |r|..]
    ensures |r| < |s| ==> s[|s| - |r| - 1] == c
  {
    match LastIndex(s, c)
    case None => s
    case Some(i) => s[i + 1..]
  }

  /**
   * `Path::file_name`, with `""` for none: the last component of the path,
   * where empty components (from repeated or trailing `/`) and `.`
   * components do not count; a path whose last component is `..`, or that
   * has no component left, has no file name.
   */
  function FileName(path: string): (r: string)
    ensures '/' !in r && r != "." && r != ".."
    decreases |path|
  {
    var last := AfterLast(path, '/');
    if last == "" || last == "." then
      if |last| == |path| then "" else FileName(path[..|path| - |last| - 1])
    else if last == ".." then ""
    else last
  }

  /**
   * `Path::file_stem` followed by `unwrap_or_default`: the stem of the file
   * name drops the text from the last `.` on, unless that dot is the name's
   * first character.
   */
  function FileStem(path: string): string {
    NameStem(FileName(path))
  }

  /** The stem of a file name; the names `` and `..` have none. */
  function NameStem(name: string): string {
    if name == "" || name == ".." then ""
    else
      match LastIndex(name, '.')
      case None => name
      case Some(i) => if i == 0 then name else name[..i]
  }

  /** The first two pieces of `s.split(c)`, when there are two or more. */
  function FirstTwoPieces(s: string, c: char): (r: Option<(string, string)>)
    ensures r.None? <==> c !in s
    ensures r.Some? ==> c !in r.value.0 && c !in r.value.1
  {
    match FirstIndex(s, c)
    case None => None
    case Some(i) =>
      var rest := s[i + 1..];
      match FirstIndex(rest, c)
      case None => Some((s[..i], rest))
      case Some(j) => Some((s[..i], rest[..j]))
  }

  predicate IsDigit(ch: char) {
    '0' <= ch <= '9'
  }

  predicate AllDigits(s: string) {
    forall i :: 0 <= i < |s| ==> IsDigit(s[i])
  }

  /** The number a string of decimal digits denotes, most significant digit first. */
  function DigitsValue(s: string): nat
    requires AllDigits(s)
  {
    if s == [] then 0
    else DigitsValue(s[..|s| - 1]) * 10 + (s[|s| - 1] as int - '0' as int)
  }

  /**
   * `u8::from_str_radix(s, 10)`: an optional `+`, then one or more decimal
   * digits whose value fits in a byte.
   */
  function ParseU8(s: string): (r: Option<nat>)
    ensures r.Some? ==> r.value < 256
    ensures r.Some? ==> s != [] && (s[0] == '+' || IsDigit(s[0]))
  {
    var digits := if |s| > 0 && s[0] == '+' then s[1..] else s;
    if digits != [] && AllDigits(digits) && DigitsValue(digits) < 256 then Some(DigitsValue(digits))
    else None
  }

  /** The `(cols, rows)` the atlas decoder infers from an asset path. */
  function AtlasGrid(path: string): (r: (nat, nat))
    ensures r.0 < 256 && r.1 < 256
  {
    GridOfSuffix(AfterLast(FileStem(path), '_'))
  }

  /** The grid a `<cols>x<rows>` suffix denotes; (1, 1) unless both counts parse. */
  function GridOfSuffix(last: string): (r: (nat, nat))
    ensures r.0 < 256 && r.1 < 256
  {
    match FirstTwoPieces(last, 'x')
    case None => (1, 1)
    case Some((c, r)) =>
      match (ParseU8(c), ParseU8(r))
      case (Some(cols), Some(rows)) => (cols, rows)
      case _ => (1, 1)
  }

  /** How a number is written in a file name: decimal, no leading zeros. */
  function Decimal(n: nat): (s: string)
    ensures s != [] && AllDigits(s)
  {
    var d := ['0' + (n % 10) as char];
    if n < 10 then d else Decimal(n / 10) + d
  }

  lemma {:induction false} DecimalValue(n: nat)
    ensures DigitsValue(Decimal(n)) == n
  {
    var d := ['0' + (n % 10) as char];
    if n >= 10 {
      DecimalValue(n / 10);
      assert (Decimal(n / 10) + d)[..|Decimal(n)| - 1] == Decimal(n / 10);
    }
  }

  /** Writing a byte-sized number and parsing it back gives the number. */
  lemma ParseDecimal(n: nat)
    requires n < 256
    ensures ParseU8(Decimal(n)) == Some(n)
  {
    DecimalValue(n);
  }

  lemma LastIndexOfSeparator(a: string, c: char, b: string)
    requires c !in b
    ensures LastIndex(a + [c] + b, c) == Some(|a|)
  {
    var s := a + [c] + b;
    var r := LastIndex(s, c);
    assert s[|a|] == c;
    forall i | r.value < i < |s| ensures s[i] != c {
      assert s[i] == s[r.value + 1..][i - r.value - 1];
    }
    forall i | |a| < i < |s| ensures s[i] != c {
      assert s[i] == b[i - |a| - 1];
    }
  }

  lemma FirstIndexOfSeparator(a: string, c: char, b: string)
    requires c !in a
    ensures FirstIndex(a + [c] + b, c) == Some(|a|)
  {
    var s := a + [c] + b;
    var r := FirstIndex(s, c);
    assert s[|a|] == c;
    forall i | 0 <= i < r.value ensures s[i] != c {
      assert s[i] == s[..r.value][i];
    }
    forall i | 0 <= i < |a| ensures s[i] != c {
      assert s[i] == a[i];
    }
  }

  lemma AfterLastSeparator(a: string, c: char, b: string)
    requires c !in b
    ensures AfterLast(a + [c] + b, c) == b
  {
    LastIndexOfSeparator(a, c, b);
    assert (a + [c] + b)[|a| + 1..] == b;
  }

  lemma AfterLastAbsent(s: string, c: char)
    requires c !in s
    ensures AfterLast(s, c) == s
  {
  }

  /** A directory prefix, empty or ending in `/`, does not change the file name. */
  lemma FileNameInDirectory(dir: string, name: string)
    requires dir == [] || dir[|dir| - 1] == '/'
    requires '/' !in name && name != "" && name != "." && name != ".."
    ensures FileName(dir + name) == name
  {
    if dir == [] {
      assert dir + name == name;
    } else {
      var d := dir[..|dir| - 1];
      assert dir + name == d + ['/'] + name;
      AfterLastSeparator(d, '/', name);
    }
  }

  /** A trailing `/` or `/.` does not change the file name, as `Path` normalises both away. */
  lemma {:induction false} TrailingSeparatorIgnored(path: string)
    ensures FileName(path + "/") == FileName(path)
    ensures FileName(path + "/.") == FileName(path)
  {
    AfterLastSeparator(path, '/', "");
    assert path + "/" == path + ['/'] + "";
    assert (path + "/")[..|path|] == path;
    AfterLastSeparator(path, '/', ".");
    assert path + "/." == path + ['/'] + ".";
    assert (path + "/.")[..|path|] == path;
  }

  /** The stem of `<stem>.<ext>` is `<stem>` when the extension has no dot. */
  lemma StemOfName(stem: string, ext: string)
    requires stem != [] && ext != [] && '.' !in ext
    ensures NameStem(stem + "." + ext) == stem
  {
    var name := stem + ['.'] + ext;
    assert stem + "." + ext == name;
    LastIndexOfSeparator(stem, '.', ext);
    assert |name| > 2;
    assert name[..|stem|] == stem;
  }

  /** The stem of `<dir><stem>.<ext>` is `<stem>` when the extension has no dot. */
  lemma StemOfFile(dir: string, stem: string, ext: string)
    requires dir == [] || dir[|dir| - 1] == '/'
    requires stem != [] && ext != [] && '/' !in stem && '/' !in ext && '.' !in ext
    ensures FileStem(dir + stem + "." + ext) == stem
  {
    var name := stem + "." + ext;
    assert dir + stem + "." + ext == dir + name;
    assert '/' !in name by {
      forall i | 0 <= i < |name| ensures name[i] != '/' {
        if i < |stem| { assert name[i] == stem[i]; }
        else if i > |stem| { assert name[i] == ext[i - |stem| - 1]; }
      }
    }
    FileNameInDirectory(dir, name);
    StemOfName(stem, ext);
  }

  /** `<c>x<r>` with digit strings `c` and `r` splits into exactly those two pieces. */
  lemma PiecesOfDigits(c: string, r: string)
    requires AllDigits(c) && AllDigits(r)
    ensures FirstTwoPieces(c + "x" + r, 'x') == Some((c, r))
  {
    var s := c + ['x'] + r;
    assert c + "x" + r == s;
    assert 'x' !in c by {
      forall i | 0 <= i < |c| ensures c[i] != 'x' { assert IsDigit(c[i]); }
    }
    assert 'x' !in r by {
      forall i | 0 <= i < |r| ensures r[i] != 'x' { assert IsDigit(r[i]); }
    }
    FirstIndexOfSeparator(c, 'x', r);
    assert s[..|c|] == c && s[|c| + 1..] == r;
  }

  /** A digit string holds no `_`. */
  lemma NoUnderscoreInDigits(s: string)
    requires AllDigits(s)
    ensures '_' !in s && 'x' !in s && '/' !in s && '.' !in s
  {
    forall i | 0 <= i < |s| ensures s[i] != '_' && s[i] != 'x' && s[i] != '/' && s[i] != '.' {
      assert IsDigit(s[i]);
    }
  }

  lemma GridOfDigits(cols: nat, rows: nat)
    requires cols < 256 && rows < 256
    ensures GridOfSuffix(Decimal(cols) + "x" + Decimal(rows)) == (cols, rows)
  {
    PiecesOfDigits(Decimal(cols), Decimal(rows));
    ParseDecimal(cols);
    ParseDecimal(rows);
  }

  /** Everything after the last `_` of `<base>_<cols>x<rows>` is `<cols>x<rows>`. */
  lemma SuffixAfterUnderscore(base: string, c: string, r: string)
    requires AllDigits(c) && AllDigits(r)
    ensures AfterLast(base + "_" + c + "x" + r, '_') == c + "x" + r
  {
    NoUnderscoreInDigits(c);
    NoUnderscoreInDigits(r);
    var suffix := c + "x" + r;
    assert suffix == c + ['x'] + r;
    assert '_' !in suffix;
    assert base + "_" + c + "x" + r == base + ['_'] + suffix;
    AfterLastSeparator(base, '_', suffix);
  }

  /** The `_`-suffix of the stem of `<dir><base>_<c>x<r>.<ext>` is `<c>x<r>`. */
  lemma SuffixOfFileName(dir: string, base: string, c: string, r: string, ext: string)
    requires dir == [] || dir[|dir| - 1] == '/'
    requires '/' !in base && ext != [] && '/' !in ext && '.' !in ext
    requires AllDigits(c) && AllDigits(r)
    ensures AfterLast(FileStem(dir + (base + "_" + c + "x" + r) + "." + ext), '_') == c + "x" + r
  {
    NoUnderscoreInDigits(c);
    NoUnderscoreInDigits(r);
    var stem := base + "_" + c + "x" + r;
    assert '/' !in stem by {
      assert stem == base + ['_'] + c + ['x'] + r;
    }
    StemOfFile(dir, stem, ext);
    SuffixAfterUnderscore(base, c, r);
  }

  /**
   * The file-name convention round-trips: an atlas stored as
   * `<dir><base>_<cols>x<rows>.<ext>` with byte-sized `cols` and `rows` is
   * cut into exactly `cols` by `rows` cells.
   */
  lemma GridFromFileName(dir: string, base: string, cols: nat, rows: nat, ext: string)
    requires dir == [] || dir[|dir| - 1] == '/'
    requires '/' !in base && ext != [] && '/' !in ext && '.' !in ext
    requires cols < 256 && rows < 256
    ensures AtlasGrid(dir + (base + "_" + Decimal(cols) + "x" + Decimal(rows)) + "." + ext) == (cols, rows)
  {
    SuffixOfFileName(dir, base, Decimal(cols), Decimal(rows), ext);
    GridOfDigits(cols, rows);
  }

  /** A number too large for a byte does not parse as a count. */
  lemma OversizedDecimal(n: nat)
    requires n >= 256
    ensures ParseU8(Decimal(n)) == None
  {
    DecimalValue(n);
  }

  /**
   * When either count does not fit in a byte the whole suffix is ignored:
   * `<dir><base>_<cols>x<rows>.<ext>` is then a single cell.
   */
  lemma OversizedGridIsOneCell(dir: string, base: string, cols: nat, rows: nat, ext: string)
    requires dir == [] || dir[|dir| - 1] == '/'
    requires '/' !in base && ext != [] && '/' !in ext && '.' !in ext
    requires cols >= 256 || rows >= 256
    ensures AtlasGrid(dir + (base + "_" + Decimal(cols) + "x" + Decimal(rows)) + "." + ext) == (1, 1)
  {
    SuffixOfFileName(dir, base, Decimal(cols), Decimal(rows), ext);
    PiecesOfDigits(Decimal(cols), Decimal(rows));
    if cols >= 256 { OversizedDecimal(cols); } else { OversizedDecimal(rows); }
  }

  /** The treasure hunter's sprite sheet `assets/basic_32x32.png` is a 32 by 32 grid. */
  lemma BasicAtlasIs32By32()
    ensures AtlasGrid("assets/basic_32x32.png") == (32, 32)
  {
    assert Decimal(32) == "32";
    assert "assets/basic_32x32.png" == "assets/" + ("basic" + "_" + Decimal(32) + "x" + Decimal(32)) + "." + "png";
    GridFromFileName("assets/", "basic", 32, 32, "png");
  }

  /** A file whose stem holds no `x` has no grid suffix and is a single cell. */
  lemma StemWithoutGridIsOneCell(dir: string, stem: string, ext: string)
    requires dir == [] || dir[|dir| - 1] == '/'
    requires stem != [] && ext != [] && '/' !in stem && '/' !in ext && '.' !in ext
    requires 'x' !in stem
    ensures AtlasGrid(dir + stem + "." + ext) == (1, 1)
  {
    StemOfFile(dir, stem, ext);
    var last := AfterLast(stem, '_');
    assert 'x' !in last by {
      forall i | 0 <= i < |last| ensures last[i] != 'x' {
        assert last[i] == stem[|stem| - |last| + i];
      }
    }
  }

  /** A trailing `/` or `/.` does not change the grid. */
  lemma TrailingSeparatorKeepsGrid(path: string)
    ensures AtlasGrid(path + "/") == AtlasGrid(path)
    ensures AtlasGrid(path + "/.") == AtlasGrid(path)
  {
    TrailingSeparatorIgnored(path);
  }

  /** A name without the `_<cols>x<rows>` suffix gives a single cell. */
  lemma PlainNameIsOneCell()
    ensures AtlasGrid("sheet.png") == (1, 1)
  {
    assert "sheet.png" == [] + "sheet" + "." + "png";
    assert 'x' !in "sheet" && '/' !in "sheet" && '/' !in "png" && '.' !in "png";
    StemWithoutGridIsOneCell([], "sheet", "png");
  }
}
