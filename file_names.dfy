/** File names the wallet kit derives: the default wallet file of a new wallet
    (`creationTime + ".wallet"`) and the block-store file taken from the wallet
    file's name (`name.split("\\.")[0] + ".spvchain"`). Java's `Long.toString`,
    `File.getName` and `String.split` are written out here on `seq<char>`. */
module FileNames {

  import opened Outcomes

  /** The character of one decimal digit. */
  function DigitChar(d: nat): (c: char)
    requires d < 10
    ensures '0' <= c <= '9' && c as int - '0' as int == d
  {
    "0123456789"[d]
  }

  predicate AllDigits(s: string) {
    forall i :: 0 <= i < |s| ==> '0' <= s[i] <= '9'
  }

  /** Decimal digits of a natural number, most significant first, no leading zeros. */
  function NatDigits(n: nat): (s: string)
    ensures |s| > 0 && AllDigits(s)
    ensures |s| > 1 ==> s[0] != '0'
    decreases n
  {
    if n < 10 then [DigitChar(n)] else NatDigits(n / 10) + [DigitChar(n % 10)]
  }

  /** The number a string of decimal digits denotes; the inverse of NatDigits. */
  function DigitsValue(s: string): nat
    requires AllDigits(s)
  {
    if s == [] then 0
    else DigitsValue(s[..|s| - 1]) * 10 + (s[|s| - 1] as int - '0' as int)
  }

  lemma {:induction false} DigitsRoundTrip(n: nat)
    ensures DigitsValue(NatDigits(n)) == n
    decreases n
  {
    if n >= 10 {
      var s := NatDigits(n);
      assert s[..|s| - 1] == NatDigits(n / 10);
      DigitsRoundTrip(n / 10);
    }
  }

  /** Java's `Long.toString`: an optional minus sign followed by the digits. */
  function DecimalString(n: int): (s: string)
    ensures n >= 0 ==> AllDigits(s) && DigitsValue(s) == n && |s| > 0 && (|s| > 1 ==> s[0] != '0')
    ensures n < 0 ==> |s| > 1 && s[0] == '-' && AllDigits(s[1..]) && DigitsValue(s[1..]) == -n && (|s| > 2 ==> s[1] != '0')
  {
    DigitsRoundTrip(if n < 0 then -n else n);
    if n < 0 then
      var d := NatDigits(-n);
      assert ("-" + d)[1..] == d;
      "-" + d
    else NatDigits(n)
  }

  /** A decimal string holds neither a dot nor a path separator. */
  lemma DecimalStringPlain(n: int)
    ensures '.' !in DecimalString(n) && '/' !in DecimalString(n)
  {
    var s := DecimalString(n);
    forall i | 0 <= i < |s|
      ensures s[i] != '.' && s[i] != '/'
    {
      if n < 0 && i > 0 {
        assert s[i] == s[1..][i - 1];
      }
    }
  }

  /** `File` drops trailing separators; for "/" this leaves the empty name, as `getName()` gives. */
  function TrimTrailingSlashes(p: string): string {
    if p != [] && p[|p| - 1] == '/' then TrimTrailingSlashes(p[..|p| - 1]) else p
  }

  /** Trimming keeps a prefix that does not end in a separator and drops only separators. */
  lemma {:induction false} TrimTrailingSlashesSpec(p: string)
    ensures var r := TrimTrailingSlashes(p);
            |r| <= |p| && (forall i :: 0 <= i < |r| ==> r[i] == p[i]) &&
            (r == [] || r[|r| - 1] != '/') &&
            (forall i :: |r| <= i < |p| ==> p[i] == '/')
  {
    if p != [] && p[|p| - 1] == '/' {
      TrimTrailingSlashesSpec(p[..|p| - 1]);
    }
  }

  /** The part of a path after its last separator. */
  function AfterLastSlash(p: string): string {
    if p == [] then []
    else if p[|p| - 1] == '/' then []
    else AfterLastSlash(p[..|p| - 1]) + [p[|p| - 1]]
  }

  /** What follows the last separator is a separator-free suffix of the path,
      preceded by a separator unless it is the whole path. */
  lemma {:induction false} AfterLastSlashSpec(p: string)
    ensures var r := AfterLastSlash(p);
            |r| <= |p| && (forall i :: 0 <= i < |r| ==> r[i] == p[|p| - |r| + i]) &&
            '/' !in r && (|r| < |p| ==> p[|p| - |r| - 1] == '/')
  {
    if p != [] && p[|p| - 1] != '/' {
      AfterLastSlashSpec(p[..|p| - 1]);
    }
  }

  /** `new File(path).getName()` on a Unix file system. */
  function FileName(path: string): (name: string)
    ensures |name| <= |path|
  {
    TrimTrailingSlashesSpec(path);
    AfterLastSlashSpec(TrimTrailingSlashes(path));
    AfterLastSlash(TrimTrailingSlashes(path))
  }

  /** A file name holds no separator, and a path without one is its own name. */
  lemma FileNameSpec(path: string)
    ensures '/' !in FileName(path)
    ensures '/' !in path ==> FileName(path) == path
    ensures var t, n := TrimTrailingSlashes(path), FileName(path);
            |n| <= |t| && n == t[|t| - |n|..] && (|n| < |t| ==> t[|t| - |n| - 1] == '/')
  {
    var t := TrimTrailingSlashes(path);
    TrimTrailingSlashesSpec(path);
    AfterLastSlashSpec(t);
    AfterLastSlashIsSuffix(t);
    assert FileName(path) == AfterLastSlash(t);
  }

  /** What follows the last separator is the path's tail of that length. */
  lemma AfterLastSlashIsSuffix(p: string)
    ensures var r := AfterLastSlash(p); |r| <= |p| && r == p[|p| - |r|..]
  {
    AfterLastSlashSpec(p);
    var r := AfterLastSlash(p);
    assert forall i :: 0 <= i < |r| ==> r[i] == p[|p| - |r|..][i];
  }

  /** The characters of `s` before its first dot (all of `s` when it has none). */
  function BeforeFirstDot(s: string): string {
    if s == [] || s[0] == '.' then [] else [s[0]] + BeforeFirstDot(s[1..])
  }

  /** What precedes the first dot is a dot-free prefix, followed by a dot unless
      it is the whole string. */
  lemma {:induction false} BeforeFirstDotSpec(s: string)
    ensures var r := BeforeFirstDot(s);
            |r| <= |s| && (forall i :: 0 <= i < |r| ==> r[i] == s[i]) &&
            '.' !in r && (|r| < |s| ==> s[|r|] == '.')
  {
    if s != [] && s[0] != '.' {
      BeforeFirstDotSpec(s[1..]);
    }
  }

  predicate OnlyDots(s: string) {
    forall i :: 0 <= i < |s| ==> s[i] == '.'
  }

  /** Java's `s.split("\\.")[0]`. Trailing empty fields are dropped by `split`, so a
      non-empty string made only of dots yields an empty array and index 0 throws
      (None); otherwise the first field is the text before the first dot. */
  function FirstDotField(s: string): (r: Option<string>)
    ensures r.None? ==> |s| > 0
    ensures r.Some? ==> |r.value| <= |s|
  {
    BeforeFirstDotSpec(s);
    if |s| > 0 && OnlyDots(s) then None else Some(BeforeFirstDot(s))
  }

  /** `split` fails exactly on a non-empty all-dots string; otherwise the first
      field is the dot-free prefix that ends at the first dot. */
  lemma FirstDotFieldSpec(s: string)
    ensures var r := FirstDotField(s);
            (r.None? <==> |s| > 0 && OnlyDots(s)) &&
            (r.Some? ==> '.' !in r.value && |r.value| <= |s| && (forall i :: 0 <= i < |r.value| ==> r.value[i] == s[i]) &&
                         (|r.value| < |s| ==> s[|r.value|] == '.'))
  {
    BeforeFirstDotSpec(s);
  }

  const StoreSuffix := ".spvchain"

  /** The block-store file of a wallet file: the wallet file's name up to its first
      dot, then ".spvchain"; None where `split` leaves no field to take. */
  function StoreFileName(walletFile: string): (r: Option<string>)
    ensures r.None? ==> |walletFile| > 0
    ensures r.Some? ==> |StoreSuffix| <= |r.value| <= |walletFile| + |StoreSuffix|
  {
    match FirstDotField(FileName(walletFile))
    case None => None
    case Some(stem) => Some(stem + StoreSuffix)
  }

  /** What StoreFileName yields, stated without its definition: there is no name
      exactly when the wallet file's name is made only of dots; otherwise the name
      is a dot-free prefix of the wallet file's name, ending where its first dot
      is, followed by ".spvchain". */
  lemma StoreFileNameSpec(walletFile: string)
    ensures var r := StoreFileName(walletFile);
      (r.None? <==> |FileName(walletFile)| > 0 && OnlyDots(FileName(walletFile))) &&
      (r.Some? ==> |r.value| >= |StoreSuffix|)
    ensures var r, name := StoreFileName(walletFile), FileName(walletFile);
      r.Some? ==>
        var stem := r.value[..|r.value| - |StoreSuffix|];
        r.value == stem + StoreSuffix && '.' !in stem && '/' !in stem &&
        |stem| <= |name| && stem == name[..|stem|] && (|stem| < |name| ==> name[|stem|] == '.')
  {
    var name := FileName(walletFile);
    FileNameSpec(walletFile);
    FirstDotFieldSpec(name);
    var r := StoreFileName(walletFile);
    if r.Some? {
      var stem := FirstDotField(name).value;
      assert r.value[..|r.value| - |StoreSuffix|] == stem;
      assert stem == name[..|stem|];
    }
  }

  /** A wallet file `stem + tail` whose plain, non-empty stem is followed by a dot
      has the block store `stem + ".spvchain"`. */
  lemma StoreFileNameOfStem(stem: string, tail: string)
    requires |stem| > 0 && '.' !in stem && '/' !in stem
    requires |tail| > 0 && tail[0] == '.' && '/' !in tail
    ensures StoreFileName(stem + tail) == Some(stem + StoreSuffix)
  {
    var file := stem + tail;
    assert '/' !in file by {
      forall i | 0 <= i < |file| ensures file[i] != '/' {
        if i < |stem| { assert file[i] == stem[i]; } else { assert file[i] == tail[i - |stem|]; }
      }
    }
    FileNameSpec(file);
    assert file[0] == stem[0];
    BeforeFirstDotOfStem(stem, tail);
  }

  lemma {:induction false} BeforeFirstDotOfStem(stem: string, rest: string)
    requires '.' !in stem && |rest| > 0 && rest[0] == '.'
    ensures BeforeFirstDot(stem + rest) == stem
    decreases |stem|
  {
    if stem == [] {
      assert stem + rest == rest;
    } else {
      assert (stem + rest)[1..] == stem[1..] + rest;
      BeforeFirstDotOfStem(stem[1..], rest);
    }
  }

  /** The block store of a new wallet: `creationTime + ".wallet"` gives `creationTime + ".spvchain"`. */
  lemma NewWalletStoreFileName(creationTime: int)
    ensures StoreFileName(DecimalString(creationTime) + ".wallet")
         == Some(DecimalString(creationTime) + StoreSuffix)
  {
    DecimalStringPlain(creationTime);
    StoreFileNameOfStem(DecimalString(creationTime), ".wallet");
  }
}
