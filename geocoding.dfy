/** Address-to-coordinate resolution with a versioned, persisted cache.
    The browser's local storage item is the field `storage` of a `Geocoder`;
    the remote geocoding service is an `Attempt` supplied by the caller. */
module Geocoding {
  import opened Wrappers
  import opened Strings

  const CACHE_VERSION: string := "v1"
  const REGION: string := "Florianópolis"
  const REGION_SUFFIX: string := ", " + REGION + ", SC, Brazil"
  const BATCH_SIZE: nat := 5

  // ---------------------------------------------------------------------------
  // Address normalisation
  // ---------------------------------------------------------------------------

  /** The ECMAScript white-space and line-terminator characters: the set that
      both `String.prototype.trim` and the regular-expression class `\s` use. */
  predicate IsSpace(c: char) {
    if c as int < 0x80 then 9 <= c as int <= 13 || c == ' ' else IsWideSpace(c as int)
  }

  /** The white-space code points outside Basic Latin. */
  predicate IsWideSpace(n: int) {
    n == 0xA0 || n == 0x1680 || (0x2000 <= n <= 0x200A) || n == 0x2028 || n == 0x2029
    || n == 0x202F || n == 0x205F || n == 0x3000 || n == 0xFEFF
  }

  /** Upper-case letters of Basic Latin and Latin-1 (the multiplication sign excluded). */
  predicate IsUpper(c: char) {
    ('A' <= c <= 'Z') || ('\U{C0}' <= c <= '\U{DE}' && c != '\U{D7}')
  }

  function LowerChar(c: char): (r: char)
    ensures !IsUpper(r)
  {
    if IsUpper(c) then (c as int + 32) as char else c
  }

  /** `toLowerCase` */
  function Lower(s: string): (r: string)
    ensures |r| == |s| && forall i :: 0 <= i < |s| ==> r[i] == LowerChar(s[i])
  {
    seq(|s|, i requires 0 <= i < |s| => LowerChar(s[i]))
  }

  /** Drops the leading run of white space. */
  function DropLeadingSpace(s: string): (r: string)
    ensures |r| <= |s| && (s != [] && IsSpace(s[0]) ==> |r| < |s|)
    ensures r == [] || !IsSpace(r[0])
    decreases |s|
  {
    if s != [] && IsSpace(s[0]) then DropLeadingSpace(s[1..]) else s
  }

  /** What `DropLeadingSpace` leaves keeps the per-character properties of
      its input and its last character; it leaves nothing only when the input
      is empty or ends in white space. */
  lemma {:induction false} DropLeadingKeeps(s: string)
    ensures var d := DropLeadingSpace(s);
      && (d != [] ==> d[|d| - 1] == s[|s| - 1])
      && (d == [] ==> s == [] || IsSpace(s[|s| - 1]))
      && (Lowered(s) ==> Lowered(d))
      && (OnlyPlainSpaces(s) ==> OnlyPlainSpaces(d))
      && (NoAdjacentSpaces(s) ==> NoAdjacentSpaces(d))
    decreases |s|
  {
    if s != [] && IsSpace(s[0]) {
      DropLeadingKeeps(s[1..]);
      if Lowered(s) { SuffixLowered(s, 1); }
      if OnlyPlainSpaces(s) { SuffixPlain(s, 1); }
      if NoAdjacentSpaces(s) { SuffixIsolated(s, 1); }
    }
  }

  function DropTrailingSpace(s: string): (r: string)
    ensures |r| <= |s| && r == s[..|r|]
    ensures r == [] || !IsSpace(r[|r| - 1])
    decreases |s|
  {
    if s != [] && IsSpace(s[|s| - 1]) then DropTrailingSpace(s[..|s| - 1]) else s
  }

  /** `trim`: no white space is left at either end. */
  function Trim(s: string): (r: string)
    ensures |r| <= |s| && NoLeadingSpace(r) && NoTrailingSpace(r)
  {
    DropTrailingSpace(DropLeadingSpace(s))
  }

  // Global replacement of every maximal run of white space by one space.
  function CollapseSpace(s: string): string
    decreases |s|
  {
    if s == [] then []
    else if IsSpace(s[0]) then " " + CollapseSpace(DropLeadingSpace(s))
    else [s[0]] + CollapseSpace(s[1..])
  }

  // Global replacement of a comma and the white space after it by a comma and
  // one space.
  function SpaceAfterCommas(s: string): string
    decreases |s|
  {
    if s == [] then []
    else if s[0] == ',' then ", " + SpaceAfterCommas(DropLeadingSpace(s[1..]))
    else [s[0]] + SpaceAfterCommas(s[1..])
  }

  /** The cache key of an address: lower-cased, trimmed, white-space runs
      collapsed, and every comma followed by exactly one space. */
  function NormalizeAddress(address: string): string {
    SpaceAfterCommas(CollapseSpace(Trim(Lower(address))))
  }

  predicate Lowered(s: string) {
    forall i :: 0 <= i < |s| ==> !IsUpper(s[i])
  }

  predicate OnlyPlainSpaces(s: string) {
    forall i :: 0 <= i < |s| && IsSpace(s[i]) ==> s[i] == ' '
  }

  /** The white space at index `i`, if any, does not follow white space. */
  predicate SpaceIsolatedAt(s: string, i: int)
    requires 0 < i < |s|
  {
    IsSpace(s[i]) ==> !IsSpace(s[i - 1])
  }

  predicate NoAdjacentSpaces(s: string) {
    forall i :: 0 < i < |s| ==> SpaceIsolatedAt(s, i)
  }

  predicate NoLeadingSpace(s: string) {
    s == [] || !IsSpace(s[0])
  }

  predicate NoTrailingSpace(s: string) {
    s == [] || !IsSpace(s[|s| - 1])
  }

  /** The comma at index `i`, if any, is followed by a space. */
  predicate CommaSpacedAt(s: string, i: int)
    requires 0 <= i < |s|
  {
    s[i] == ',' ==> i + 1 < |s| && s[i + 1] == ' '
  }

  /** Every comma is followed by a space. */
  predicate CommasSpaced(s: string) {
    forall i :: 0 <= i < |s| ==> CommaSpacedAt(s, i)
  }

  /** The string ends in white space only right after a comma. */
  predicate TrailingSpaceAfterComma(s: string) {
    |s| > 0 && IsSpace(s[|s| - 1]) ==> |s| >= 2 && s[|s| - 2] == ','
  }

  /** The shape of a cache key: lower case, no leading white space, all white
      space plain single spaces, each comma followed by exactly one space, and
      trailing white space only after a trailing comma. */
  predicate IsNormalizedKey(s: string) {
    && Lowered(s)
    && OnlyPlainSpaces(s)
    && NoAdjacentSpaces(s)
    && NoLeadingSpace(s)
    && CommasSpaced(s)
    && TrailingSpaceAfterComma(s)
  }

  /** The comma at index `i`, if any, ends the string or is followed by
      exactly one space. */
  predicate CommaSingleSpacedAt(s: string, i: int)
    requires 0 <= i < |s|
  {
    s[i] == ',' ==> i + 1 == |s| || (s[i + 1] == ' ' && (i + 2 < |s| ==> !IsSpace(s[i + 2])))
  }

  predicate CommasSingleSpaced(s: string) {
    forall i :: 0 <= i < |s| ==> CommaSingleSpacedAt(s, i)
  }

  lemma SuffixLowered(s: string, k: nat)
    requires k <= |s| && Lowered(s)
    ensures Lowered(s[k..])
  {
    assert forall i :: 0 <= i < |s| - k ==> s[k..][i] == s[k + i];
  }

  lemma SuffixPlain(s: string, k: nat)
    requires k <= |s| && OnlyPlainSpaces(s)
    ensures OnlyPlainSpaces(s[k..])
  {
    assert forall i :: 0 <= i < |s| - k ==> s[k..][i] == s[k + i];
  }

  lemma SuffixIsolated(s: string, k: nat)
    requires k <= |s| && NoAdjacentSpaces(s)
    ensures NoAdjacentSpaces(s[k..])
  {
    var t := s[k..];
    forall i | 0 < i < |t|
      ensures SpaceIsolatedAt(t, i)
    {
      assert SpaceIsolatedAt(s, k + i);
      assert t[i] == s[k + i] && t[i - 1] == s[k + i - 1];
    }
  }

  lemma CommasSingleSpacedSuffix(s: string, k: nat)
    requires k <= |s| && CommasSingleSpaced(s)
    ensures CommasSingleSpaced(s[k..])
  {
    var t := s[k..];
    forall i | 0 <= i < |t|
      ensures CommaSingleSpacedAt(t, i)
    {
      var j := k + i;
      assert CommaSingleSpacedAt(s, j);
      assert t[i] == s[j];
      if i + 1 < |t| {
        assert t[i + 1] == s[j + 1];
      }
      if i + 2 < |t| {
        assert t[i + 2] == s[j + 2];
      }
    }
  }

  lemma PrefixKeeps(s: string, k: nat)
    requires k <= |s| && OnlyPlainSpaces(s) && NoAdjacentSpaces(s)
    ensures OnlyPlainSpaces(s[..k]) && NoAdjacentSpaces(s[..k])
  {
    var t := s[..k];
    assert forall i :: 0 <= i < k ==> t[i] == s[i];
    forall i | 0 < i < |t|
      ensures SpaceIsolatedAt(t, i)
    {
      assert SpaceIsolatedAt(s, i);
    }
  }

  lemma ConcatLowered(a: string, b: string)
    requires Lowered(a) && Lowered(b)
    ensures Lowered(a + b)
  {
    var c := a + b;
    assert forall i :: 0 <= i < |a| ==> c[i] == a[i];
    assert forall i :: 0 <= i < |b| ==> c[|a| + i] == b[i];
  }

  lemma ConcatPlain(a: string, b: string)
    requires OnlyPlainSpaces(a) && OnlyPlainSpaces(b)
    ensures OnlyPlainSpaces(a + b)
  {
    var c := a + b;
    assert forall i :: 0 <= i < |a| ==> c[i] == a[i];
    assert forall i :: 0 <= i < |b| ==> c[|a| + i] == b[i];
  }

  lemma ConcatIsolated(a: string, b: string)
    requires NoAdjacentSpaces(a) && NoAdjacentSpaces(b)
    requires a == [] || b == [] || !IsSpace(b[0]) || !IsSpace(a[|a| - 1])
    ensures NoAdjacentSpaces(a + b)
  {
    var c := a + b;
    forall i | 0 < i < |c|
      ensures SpaceIsolatedAt(c, i)
    {
      if i > |a| {
        assert SpaceIsolatedAt(b, i - |a|);
        assert c[i] == b[i - |a|] && c[i - 1] == b[i - 1 - |a|];
      } else if i < |a| {
        assert SpaceIsolatedAt(a, i);
        assert c[i] == a[i] && c[i - 1] == a[i - 1];
      } else {
        assert c[i] == b[0] && c[i - 1] == a[|a| - 1];
      }
    }
  }

  lemma ConcatCommas(a: string, b: string)
    requires CommasSpaced(a) && CommasSpaced(b)
    ensures CommasSpaced(a + b)
  {
    var c := a + b;
    forall i | 0 <= i < |c|
      ensures CommaSpacedAt(c, i)
    {
      if i >= |a| {
        assert CommaSpacedAt(b, i - |a|);
        assert c[i] == b[i - |a|];
        if i + 1 < |c| {
          assert c[i + 1] == b[i + 1 - |a|];
        }
      } else {
        assert CommaSpacedAt(a, i);
        assert c[i] == a[i];
        if i + 1 < |a| {
          assert c[i + 1] == a[i + 1];
        }
      }
    }
  }

  lemma {:induction false} CollapseKeepsLowered(s: string)
    requires Lowered(s)
    ensures Lowered(CollapseSpace(s))
    decreases |s|
  {
    if s != [] {
      if IsSpace(s[0]) {
        var d := DropLeadingSpace(s);
        DropLeadingKeeps(s);
        CollapseKeepsLowered(d);
        ConcatLowered(" ", CollapseSpace(d));
      } else {
        SuffixLowered(s, 1);
        CollapseKeepsLowered(s[1..]);
        ConcatLowered([s[0]], CollapseSpace(s[1..]));
      }
    }
  }

  lemma {:induction false} CommasKeepLowered(s: string)
    requires Lowered(s)
    ensures Lowered(SpaceAfterCommas(s))
    decreases |s|
  {
    if s != [] {
      SuffixLowered(s, 1);
      if s[0] == ',' {
        var d := DropLeadingSpace(s[1..]);
        DropLeadingKeeps(s[1..]);
        CommasKeepLowered(d);
        ConcatLowered(", ", SpaceAfterCommas(d));
      } else {
        CommasKeepLowered(s[1..]);
        ConcatLowered([s[0]], SpaceAfterCommas(s[1..]));
      }
    }
  }

  /** Collapsing keeps emptiness and a first character that is not white space. */
  lemma CollapseHead(s: string)
    ensures CollapseSpace(s) == [] <==> s == []
    ensures s != [] && !IsSpace(s[0]) ==> CollapseSpace(s)[0] == s[0]
  {
  }

  /** Collapsing leaves only isolated plain spaces and keeps the absence of
      trailing white space. */
  lemma {:induction false} CollapseShape(s: string)
    ensures OnlyPlainSpaces(CollapseSpace(s)) && NoAdjacentSpaces(CollapseSpace(s))
    ensures NoTrailingSpace(s) ==> NoTrailingSpace(CollapseSpace(s))
    decreases |s|
  {
    if s != [] {
      if IsSpace(s[0]) {
        var d := DropLeadingSpace(s);
        DropLeadingKeeps(s);
        CollapseShape(d);
        CollapseHead(d);
        ConcatPlain(" ", CollapseSpace(d));
        ConcatIsolated(" ", CollapseSpace(d));
        if NoTrailingSpace(s) {
          assert d != [] by {
            assert !IsSpace(s[|s| - 1]);
          }
          assert d[|d| - 1] == s[|s| - 1];
        }
      } else {
        assert NoTrailingSpace(s) && |s| > 1 ==> NoTrailingSpace(s[1..]);
        CollapseShape(s[1..]);
        CollapseHead(s[1..]);
        ConcatPlain([s[0]], CollapseSpace(s[1..]));
        ConcatIsolated([s[0]], CollapseSpace(s[1..]));
      }
    }
  }

  /** Inserting the comma spaces keeps emptiness and the first character. */
  lemma CommasHead(s: string)
    ensures SpaceAfterCommas(s) == [] <==> s == []
    ensures s != [] ==> SpaceAfterCommas(s)[0] == s[0]
  {
  }

  /** After inserting the comma spaces, every comma is followed by a space. */
  lemma {:induction false} CommasSpacedAfter(s: string)
    ensures CommasSpaced(SpaceAfterCommas(s))
    decreases |s|
  {
    if s != [] {
      if s[0] == ',' {
        var d := DropLeadingSpace(s[1..]);
        DropLeadingKeeps(s[1..]);
        CommasSpacedAfter(d);
        ConcatCommas(", ", SpaceAfterCommas(d));
      } else {
        CommasSpacedAfter(s[1..]);
        ConcatCommas([s[0]], SpaceAfterCommas(s[1..]));
      }
    }
  }

  /** Inserting the comma spaces adds only plain spaces. */
  lemma {:induction false} CommasKeepPlain(s: string)
    requires OnlyPlainSpaces(s)
    ensures OnlyPlainSpaces(SpaceAfterCommas(s))
    decreases |s|
  {
    if s != [] {
      if s[0] == ',' {
        var d := DropLeadingSpace(s[1..]);
        SuffixPlain(s, 1);
        DropLeadingKeeps(s[1..]);
        CommasKeepPlain(d);
        ConcatPlain(", ", SpaceAfterCommas(d));
      } else {
        SuffixPlain(s, 1);
        CommasKeepPlain(s[1..]);
        ConcatPlain([s[0]], SpaceAfterCommas(s[1..]));
      }
    }
  }

  /** Inserting the comma spaces never puts two white-space characters side
      by side when the input had none. */
  lemma {:induction false} CommasKeepIsolated(s: string)
    requires NoAdjacentSpaces(s)
    ensures NoAdjacentSpaces(SpaceAfterCommas(s))
    decreases |s|
  {
    if s != [] {
      if s[0] == ',' {
        var d := DropLeadingSpace(s[1..]);
        SuffixIsolated(s, 1);
        DropLeadingKeeps(s[1..]);
        CommasKeepIsolated(d);
        CommasHead(d);
        ConcatIsolated(", ", SpaceAfterCommas(d));
      } else {
        SuffixIsolated(s, 1);
        CommasKeepIsolated(s[1..]);
        CommasHead(s[1..]);
        if |s| > 1 && IsSpace(s[0]) {
          assert s[1..][0] == s[1];
          assert SpaceIsolatedAt(s, 1);
        }
        ConcatIsolated([s[0]], SpaceAfterCommas(s[1..]));
      }
    }
  }

  lemma TrailingAfterPrefix(p: string, r: string)
    requires r != [] && TrailingSpaceAfterComma(r)
    ensures TrailingSpaceAfterComma(p + r)
  {
    var c := p + r;
    assert c[|c| - 1] == r[|r| - 1];
    if |r| >= 2 {
      assert c[|c| - 2] == r[|r| - 2];
    }
  }

  /** Inserting the comma spaces into a string without trailing white space
      gives one that ends in white space only after a comma. */
  lemma {:induction false} CommasTrailing(s: string)
    requires NoTrailingSpace(s)
    ensures TrailingSpaceAfterComma(SpaceAfterCommas(s))
    decreases |s|
  {
    if s != [] {
      if s[0] == ',' {
        var d := DropLeadingSpace(s[1..]);
        DropLeadingKeeps(s[1..]);
        if d != [] {
          CommasTrailing(d);
          CommasHead(d);
          TrailingAfterPrefix(", ", SpaceAfterCommas(d));
        }
      } else if |s| > 1 {
        assert s[1..][|s| - 2] == s[|s| - 1];
        CommasTrailing(s[1..]);
        CommasHead(s[1..]);
        TrailingAfterPrefix([s[0]], SpaceAfterCommas(s[1..]));
      }
    }
  }

  lemma LowerKeepsLowered(s: string)
    ensures Lowered(Lower(s))
  {
  }

  /** Trimming keeps lower case. */
  lemma TrimShape(s: string)
    ensures Lowered(s) ==> Lowered(Trim(s))
  {
    var d := DropLeadingSpace(s);
    DropLeadingKeeps(s);
    var t := Trim(s);
    assert forall i :: 0 <= i < |t| ==> t[i] == d[i];
  }

  /** Every normalised address has the shape of a cache key: lower case, no
      leading white space, no adjacent spaces, only plain spaces, and every
      comma followed by exactly one space. */
  lemma NormalizeIsKey(address: string)
    ensures IsNormalizedKey(NormalizeAddress(address))
  {
    var t := Trim(Lower(address));
    LowerKeepsLowered(address);
    TrimShape(Lower(address));
    CollapseShape(t);
    CollapseHead(t);
    CollapseKeepsLowered(t);
    var c := CollapseSpace(t);
    CommasHead(c);
    CommasSpacedAfter(c);
    CommasKeepPlain(c);
    CommasKeepIsolated(c);
    CommasTrailing(c);
    CommasKeepLowered(c);
  }

  lemma {:induction false} CollapseFixed(s: string)
    requires OnlyPlainSpaces(s) && NoAdjacentSpaces(s)
    ensures CollapseSpace(s) == s
    decreases |s|
  {
    if s != [] {
      SuffixPlain(s, 1);
      SuffixIsolated(s, 1);
      CollapseFixed(s[1..]);
      if IsSpace(s[0]) {
        if |s| > 1 {
          assert SpaceIsolatedAt(s, 1);
        }
        DropOneSpace(s);
        assert CollapseSpace(s) == " " + s[1..];
      } else {
        assert CollapseSpace(s) == [s[0]] + s[1..];
      }
      assert s == [s[0]] + s[1..];
    }
  }

  /** Commas already followed by one space (or ending the string) are left
      alone, except that a final comma gains its space. */
  /** A single white-space character is dropped alone. */
  lemma DropOneSpace(s: string)
    requires |s| > 0 && IsSpace(s[0]) && (|s| > 1 ==> !IsSpace(s[1]))
    ensures DropLeadingSpace(s) == s[1..]
  {
    assert DropLeadingSpace(s) == DropLeadingSpace(s[1..]);
    assert s[1..] != [] ==> s[1..][0] == s[1];
  }

  lemma {:induction false} CommasFixed(s: string)
    requires CommasSingleSpaced(s)
    ensures SpaceAfterCommas(s) == if s != [] && s[|s| - 1] == ',' then s + " " else s
    decreases |s|
  {
    if s == [] {
    } else if s[0] != ',' {
      CommasSingleSpacedSuffix(s, 1);
      CommasFixed(s[1..]);
      assert SpaceAfterCommas(s) == [s[0]] + SpaceAfterCommas(s[1..]);
      assert s == [s[0]] + s[1..];
    } else if |s| == 1 {
      assert DropLeadingSpace(s[1..]) == [];
    } else {
      assert CommaSingleSpacedAt(s, 0);
      var rest := s[2..];
      DropOneSpace(s[1..]);
      assert s[1..][1..] == rest;
      assert SpaceAfterCommas(s) == ", " + SpaceAfterCommas(rest);
      assert s == ", " + rest;
      CommasSingleSpacedSuffix(s, 2);
      CommasFixed(rest);
      if rest != [] {
        assert rest[|rest| - 1] == s[|s| - 1];
      }
    }
  }

  /** Lower-case strings are left alone by `Lower`. */
  lemma LowerFixed(s: string)
    requires Lowered(s)
    ensures Lower(s) == s
  {
  }

  /** A cache key keeps the comma spacing normalisation expects once its
      trailing space, if any, is trimmed. */
  lemma TrimmedKey(k: string) returns (t: string)
    requires IsNormalizedKey(k)
    ensures t == Trim(k)
    ensures OnlyPlainSpaces(t) && NoAdjacentSpaces(t) && CommasSingleSpaced(t)
    ensures k == if t != [] && t[|t| - 1] == ',' then t + " " else t
  {
    assert DropLeadingSpace(k) == k;
    t := Trim(k);
    if k != [] && IsSpace(k[|k| - 1]) {
      assert DropTrailingSpace(k) == DropTrailingSpace(k[..|k| - 1]);
      assert k[..|k| - 1][|k| - 2] == ',';
      assert t == k[..|k| - 1];
      assert k == t + " ";
    } else {
      assert t == k;
      assert k != [] ==> CommaSpacedAt(k, |k| - 1);
    }
    PrefixKeeps(k, |t|);
    forall i | 0 <= i < |t| && t[i] == ','
      ensures CommaSingleSpacedAt(t, i)
    {
      assert k[i] == ',';
      assert CommaSpacedAt(k, i);
      if i + 2 < |t| {
        assert t[i + 2] == k[i + 2];
        assert SpaceIsolatedAt(k, i + 2);
      }
    }
  }

  /** Cache keys are exactly the strings normalisation leaves unchanged. */
  lemma NormalizeKeeps(k: string)
    ensures NormalizeAddress(k) == k <==> IsNormalizedKey(k)
  {
    if IsNormalizedKey(k) {
      LowerFixed(k);
      var t := TrimmedKey(k);
      CollapseFixed(t);
      CommasFixed(t);
    } else {
      NormalizeIsKey(k);
    }
  }

  /** Normalising twice is normalising once. */
  lemma NormalizeIdempotent(address: string)
    ensures NormalizeAddress(NormalizeAddress(address)) == NormalizeAddress(address)
  {
    NormalizeIsKey(address);
    NormalizeKeeps(NormalizeAddress(address));
  }

  // ---------------------------------------------------------------------------
  // The persisted cache
  // ---------------------------------------------------------------------------

  datatype Location = Location(lat: real, lng: real, formattedAddress: Option<string>, geocodedAt: int)

  datatype Cache = Cache(version: string, entries: map<string, Location>)

  /** The local storage item: absent (or empty), not parseable, or a parsed cache. */
  datatype StoredItem = Missing | Unparseable | Stored(cache: Cache)

  /** `loadCache`: the stored cache when it parses and carries the current
      version, otherwise a fresh empty one. */
  function LoadCache(item: StoredItem): (c: Cache)
    ensures c.version == CACHE_VERSION
    ensures item.Stored? && item.cache.version == CACHE_VERSION ==> c == item.cache
    ensures !(item.Stored? && item.cache.version == CACHE_VERSION) ==> c.entries == map[]
  {
    match item
    case Stored(cache) => if cache.version == CACHE_VERSION then cache else Cache(CACHE_VERSION, map[])
    case _ => Cache(CACHE_VERSION, map[])
  }

  /** `getCachedLocation` against a given storage item: a location only from
      a parsed cache of the current version, the entry under the address's key. */
  function Lookup(item: StoredItem, address: string): (r: Option<Location>)
    ensures r.Some? <==> item.Stored? && item.cache.version == CACHE_VERSION
                         && NormalizeAddress(address) in item.cache.entries
    ensures r.Some? ==> r.value == item.cache.entries[NormalizeAddress(address)]
  {
    var entries := LoadCache(item).entries;
    var key := NormalizeAddress(address);
    if key in entries then Some(entries[key]) else None
  }

  /** The storage item after a successful resolution of `address`: the loaded
      cache with one entry written under the unsuffixed normalised address. */
  function Written(item: StoredItem, address: string, loc: Location): (r: StoredItem)
    ensures r.Stored? && r.cache.version == CACHE_VERSION
    ensures r.cache.entries.Keys == LoadCache(item).entries.Keys + {NormalizeAddress(address)}
    ensures r.cache.entries[NormalizeAddress(address)] == loc
    ensures forall k :: k in LoadCache(item).entries && k != NormalizeAddress(address) ==>
              r.cache.entries[k] == LoadCache(item).entries[k]
  {
    Stored(Cache(CACHE_VERSION, LoadCache(item).entries[NormalizeAddress(address) := loc]))
  }

  /** A stale version hides every entry. */
  lemma StaleVersionHidesEntries(c: Cache, address: string)
    requires c.version != CACHE_VERSION
    ensures Lookup(Stored(c), address) == None
  {
  }

  /** Addresses with the same key share one entry, and an address shares its
      entry with its own key. */
  lemma LookupByKey(item: StoredItem, a: string, b: string)
    ensures NormalizeAddress(a) == NormalizeAddress(b) ==> Lookup(item, a) == Lookup(item, b)
    ensures Lookup(item, NormalizeAddress(a)) == Lookup(item, a)
  {
    NormalizeIdempotent(a);
  }

  /** After a write, the written address (and every address with the same key)
      finds the new location, and every other address finds what it found before. */
  lemma ReadAfterWrite(item: StoredItem, a: string, loc: Location, b: string)
    ensures Lookup(Written(item, a, loc), b) ==
      if NormalizeAddress(b) == NormalizeAddress(a) then Some(loc) else Lookup(item, b)
  {
  }

  ghost predicate Extends(before: map<string, Location>, after: map<string, Location>) {
    forall k :: k in before ==> k in after && after[k] == before[k]
  }

  /** Every address cached in `before` finds the same location in `after`. */
  ghost predicate Keeps(before: StoredItem, after: StoredItem) {
    forall a :: Lookup(before, a).Some? ==> Lookup(after, a) == Lookup(before, a)
  }

  lemma KeepsTransitive(a: StoredItem, b: StoredItem, c: StoredItem)
    requires Keeps(a, b) && Keeps(b, c)
    ensures Keeps(a, c)
  {
  }

  /** Writing an address that was not cached keeps every cached address. */
  lemma WriteKeeps(item: StoredItem, a: string, loc: Location)
    requires Lookup(item, a).None?
    ensures Keeps(item, Written(item, a, loc))
  {
    forall b | Lookup(item, b).Some?
      ensures Lookup(Written(item, a, loc), b) == Lookup(item, b)
    {
      ReadAfterWrite(item, a, loc, b);
      LookupByKey(item, a, b);
    }
  }

  /** Writing a key that was missing keeps every existing entry. */
  lemma WriteExtends(item: StoredItem, a: string, loc: Location)
    requires Lookup(item, a).None?
    ensures Extends(LoadCache(item).entries, LoadCache(Written(item, a, loc)).entries)
    ensures |LoadCache(Written(item, a, loc)).entries| == |LoadCache(item).entries| + 1
  {
  }

  datatype CacheStats = CacheStats(entries: nat, addresses: set<string>)

  /** `getCacheStats` against a given storage item. */
  function Stats(item: StoredItem): (r: CacheStats)
    ensures r.entries == |r.addresses|
    ensures forall k :: k in r.addresses <==> k in LoadCache(item).entries
  {
    var keys := LoadCache(item).entries.Keys;
    CacheStats(|keys|, keys)
  }

  // ---------------------------------------------------------------------------
  // The remote service
  // ---------------------------------------------------------------------------

  datatype Candidate = Candidate(lat: real, lng: real, formattedAddress: string)

  /** What `fetch` and `response.json()` yield: a thrown error, or a body with a
      status and a list of results. */
  datatype Reply = Threw | Answered(status: string, results: seq<Candidate>)

  /** The environment of one resolution: the service's reply, the clock, and
      whether writing local storage succeeds. */
  datatype Attempt = Attempt(reply: Reply, now: int, saveSucceeds: bool)

  /** The address sent to the service: region-qualified unless the raw address
      already names the region (a case-sensitive test). */
  function ServiceQuery(address: string): (q: string)
    ensures Contains(q, REGION) && StartsWith(q, address)
    ensures Contains(address, REGION) ==> q == address
  {
    if Contains(address, REGION) then address
    else
      var q := address + REGION_SUFFIX;
      assert q == (address + ", " + REGION) + ", SC, Brazil";
      assert q[|address| + 2..|address| + 2 + |REGION|] == REGION;
      ContainsAt(q, REGION, |address| + 2);
      q
  }

  /** Qualifying a query again changes nothing. */
  lemma ServiceQueryNamesRegion(address: string)
    ensures ServiceQuery(ServiceQuery(address)) == ServiceQuery(address)
  {
  }

  /** The location a reply yields: the first result of an "OK" reply with
      results, stamped with the current time; nothing otherwise. */
  function Interpret(reply: Reply, now: int): (r: Option<Location>)
    ensures r.Some? <==> reply.Answered? && reply.status == "OK" && |reply.results| > 0
    ensures r.Some? ==>
      && r.value.lat == reply.results[0].lat && r.value.lng == reply.results[0].lng
      && r.value.formattedAddress == Some(reply.results[0].formattedAddress) && r.value.geocodedAt == now
  {
    match reply
    case Answered(status, results) =>
      if status == "OK" && |results| > 0 then
        Some(Location(results[0].lat, results[0].lng, Some(results[0].formattedAddress), now))
      else None
    case Threw => None
  }

  // ---------------------------------------------------------------------------
  // Resolutions, one at a time and in sequence
  // ---------------------------------------------------------------------------

  /** What one `geocodeAddress` call returns and leaves behind: its location,
      the storage item after it, and the queries it sent. */
  datatype Step = Step(location: Option<Location>, storage: StoredItem, sent: seq<string>)

  /** One `geocodeAddress` call against storage `item`: cache first; fail fast
      without a key; otherwise one query, whose success is written through. */
  function Resolution(apiKey: string, item: StoredItem, address: string, attempt: Attempt): Step {
    match Lookup(item, address)
    case Some(loc) => Step(Some(loc), item, [])
    case None =>
      if apiKey == "" then Step(None, item, [])
      else
        var r := Interpret(attempt.reply, attempt.now);
        Step(r, if r.Some? && attempt.saveSucceeds then Written(item, address, r.value) else item,
             [ServiceQuery(address)])
  }

  /** A resolution keeps every cached address, answers a hit from the cache,
      sends at most one query, and without a key changes nothing. */
  lemma ResolutionKeeps(apiKey: string, item: StoredItem, address: string, attempt: Attempt)
    ensures var s := Resolution(apiKey, item, address, attempt);
      && Keeps(item, s.storage) && |s.sent| <= 1
      && (Lookup(item, address).Some? ==> s.location == Lookup(item, address) && s.storage == item && s.sent == [])
      && (apiKey == "" ==> s.location == Lookup(item, address) && s.storage == item && s.sent == [])
  {
    if Lookup(item, address).None? && apiKey != "" {
      var r := Interpret(attempt.reply, attempt.now);
      if r.Some? {
        WriteKeeps(item, address, r.value);
      }
    }
  }

  /** The outcome of calls made one after another: their locations, the
      storage item they leave, and the queries they sent, in order. */
  datatype Replay = Replay(locations: seq<Option<Location>>, storage: StoredItem, sent: seq<string>)

  /** A way of making one call: from the storage item before it, the address
      and the call's number. */
  type Caller = (StoredItem, string, nat) -> Step

  /** The calls `resolve(_, addresses[i], first + i)`, each starting from the
      storage item the previous one left. */
  function Replayed(resolve: Caller, item: StoredItem, addresses: seq<string>, first: nat): (r: Replay)
    ensures |r.locations| == |addresses|
    decreases |addresses|
  {
    if addresses == [] then Replay([], item, [])
    else
      var step := resolve(item, addresses[0], first);
      var rest := Replayed(resolve, step.storage, addresses[1..], first + 1);
      Replay([step.location] + rest.locations, rest.storage, step.sent + rest.sent)
  }

  /** A run is its first call, then the run of the rest from where that call
      left the storage. */
  lemma ReplayedHead(resolve: Caller, item: StoredItem, addresses: seq<string>, first: nat)
    requires addresses != []
    ensures var st := resolve(item, addresses[0], first);
            var rest := Replayed(resolve, st.storage, addresses[1..], first + 1);
            var r := Replayed(resolve, item, addresses, first);
      && r.storage == rest.storage && r.sent == st.sent + rest.sent && r.locations[0] == st.location
      && forall i :: 0 < i < |addresses| ==> r.locations[i] == rest.locations[i - 1] && addresses[i] == addresses[1..][i - 1]
  {
  }

  /** Running `a + b` is running `a`, then `b` from the storage `a` left. */
  lemma {:induction false} ReplayedAppend(resolve: Caller, item: StoredItem, a: seq<string>, b: seq<string>, first: nat)
    ensures var ra := Replayed(resolve, item, a, first);
            var rb := Replayed(resolve, ra.storage, b, first + |a|);
            Replayed(resolve, item, a + b, first) ==
              Replay(ra.locations + rb.locations, rb.storage, ra.sent + rb.sent)
    decreases |a|
  {
    if a == [] {
      assert a + b == b;
    } else {
      var st := resolve(item, a[0], first);
      assert (a + b)[1..] == a[1..] + b;
      ReplayedAppend(resolve, st.storage, a[1..], b, first + 1);
      var rest := Replayed(resolve, st.storage, a[1..], first + 1);
      var rb := Replayed(resolve, rest.storage, b, first + |a|);
      AppendAssoc([st.location], rest.locations, rb.locations);
      AppendAssoc(st.sent, rest.sent, rb.sent);
    }
  }

  /** Making one more call is one more step of the run. */
  lemma ReplayedSnoc(resolve: Caller, item: StoredItem, addresses: seq<string>, x: string, first: nat)
    ensures var prev := Replayed(resolve, item, addresses, first);
            var step := resolve(prev.storage, x, first + |addresses|);
            Replayed(resolve, item, addresses + [x], first) ==
              Replay(prev.locations + [step.location], step.storage, prev.sent + step.sent)
  {
    ReplayedAppend(resolve, item, addresses, [x], first);
    var prev := Replayed(resolve, item, addresses, first);
    var step := resolve(prev.storage, x, first + |addresses|);
    assert [x][1..] == [];
    assert Replayed(resolve, prev.storage, [x], first + |addresses|) == Replay([step.location], step.storage, step.sent + []);
    assert step.sent + [] == step.sent;
  }

  /** `geocodeAddress` with a given key, call number `k` meeting `attempt(k)`. */
  function Resolver(apiKey: string, attempt: nat -> Attempt): Caller {
    (item: StoredItem, address: string, k: nat) => Resolution(apiKey, item, address, attempt(k))
  }

  /** The calls `geocodeAddress(addresses[i])` made one after another, call
      `i` meeting `attempt(first + i)`. */
  function ResolveAll(apiKey: string, item: StoredItem, addresses: seq<string>, attempt: nat -> Attempt, first: nat)
    : (r: Replay)
    ensures |r.locations| == |addresses|
  {
    Replayed(Resolver(apiKey, attempt), item, addresses, first)
  }

  /** How a run reads an address from the storage (`Lookup`), and the key
      it files an address under (`NormalizeAddress`); the facts about runs
      below hold for any such pair. */
  type Look = (StoredItem, string) -> Option<Location>
  type Key = string -> string

  /** `after` answers every address that `look` answers in `before`, the same way. */
  ghost predicate KeepsBy(look: Look, before: StoredItem, after: StoredItem) {
    forall a :: look(before, a).Some? ==> look(after, a) == look(before, a)
  }

  lemma KeepsByTransitive(look: Look, a: StoredItem, b: StoredItem, c: StoredItem)
    requires KeepsBy(look, a, b) && KeepsBy(look, b, c)
    ensures KeepsBy(look, a, c)
  {
  }

  /** Keeping read through `Lookup` is `Keeps`. */
  lemma KeepsByLookup(before: StoredItem, after: StoredItem)
    ensures KeepsBy(Lookup, before, after) <==> Keeps(before, after)
  {
    var look: Look := Lookup;
    if KeepsBy(Lookup, before, after) {
      forall a | Lookup(before, a).Some? ensures Lookup(after, a) == Lookup(before, a) {
        assert look(before, a) == Lookup(before, a) && look(after, a) == Lookup(after, a);
      }
    }
    if Keeps(before, after) {
      forall a | look(before, a).Some? ensures look(after, a) == look(before, a) {
        assert look(before, a) == Lookup(before, a) && look(after, a) == Lookup(after, a);
      }
    }
  }

  /** Each call answers a cached address from the cache without writing or
      sending. */
  ghost predicate HitsFirst(resolve: Caller, look: Look) {
    forall s, x, k {:trigger resolve(s, x, k)} ::
      look(s, x).Some? ==> resolve(s, x, k) == Step(look(s, x), s, [])
  }

  /** Each call keeps every cached address and sends at most one query. */
  ghost predicate KeepsCached(resolve: Caller, look: Look) {
    forall s, x, k {:trigger resolve(s, x, k)} ::
      KeepsBy(look, s, resolve(s, x, k).storage) && |resolve(s, x, k).sent| <= 1
  }

  /** Cache first: both of the above. */
  ghost predicate CacheFirst(resolve: Caller, look: Look) {
    HitsFirst(resolve, look) && KeepsCached(resolve, look)
  }

  /** Each call answers from the cache and changes nothing. */
  ghost predicate Inert(resolve: Caller, look: Look) {
    forall s, x, k {:trigger resolve(s, x, k)} :: resolve(s, x, k) == Step(look(s, x), s, [])
  }

  /** Each call for an uncached address sends that address's query, returns
      what the reply to call `k` yields, and writes no key but its own. */
  ghost predicate AsksService(resolve: Caller, look: Look, key: Key, attempt: nat -> Attempt) {
    forall s, x, k {:trigger resolve(s, x, k)} :: look(s, x).None? ==>
      var st := resolve(s, x, k);
      && st.location == Interpret(attempt(k).reply, attempt(k).now)
      && st.sent == [ServiceQuery(x)]
      && forall b :: look(s, b).None? && key(b) != key(x) ==> look(st.storage, b).None?
  }

  /** `geocodeAddress` is cache-first; without a key it is inert; with one,
      a miss asks the service. */
  lemma ResolverBehaves(apiKey: string, attempt: nat -> Attempt)
    ensures CacheFirst(Resolver(apiKey, attempt), Lookup)
    ensures apiKey == "" ==> Inert(Resolver(apiKey, attempt), Lookup)
    ensures apiKey != "" ==> AsksService(Resolver(apiKey, attempt), Lookup, NormalizeAddress, attempt)
  {
    var resolve := Resolver(apiKey, attempt);
    forall s, x, k
      ensures var st := resolve(s, x, k);
        && KeepsBy(Lookup, s, st.storage) && |st.sent| <= 1
        && (Lookup(s, x).Some? ==> st == Step(Lookup(s, x), s, []))
        && (apiKey == "" ==> st == Step(Lookup(s, x), s, []))
    {
      ResolutionKeeps(apiKey, s, x, attempt(k));
      KeepsByLookup(s, resolve(s, x, k).storage);
    }
    if apiKey != "" {
      forall s, x, k, b | Lookup(s, x).None? && Lookup(s, b).None? && NormalizeAddress(b) != NormalizeAddress(x)
        ensures Lookup(resolve(s, x, k).storage, b).None?
      {
        var loc := Interpret(attempt(k).reply, attempt(k).now);
        if loc.Some? && attempt(k).saveSucceeds {
          ReadAfterWrite(s, x, loc.value, b);
        }
      }
    }
  }

  /** A cache-first run keeps every cached address, answers every cached
      address from the cache, and sends at most one query per call. */
  lemma {:induction false} ReplayedKeeps(resolve: Caller, look: Look, item: StoredItem, addresses: seq<string>, first: nat)
    requires CacheFirst(resolve, look)
    ensures var r := Replayed(resolve, item, addresses, first);
      && KeepsBy(look, item, r.storage) && |r.sent| <= |addresses|
      && forall i :: 0 <= i < |addresses| && look(item, addresses[i]).Some? ==>
           r.locations[i] == look(item, addresses[i])
    decreases |addresses|
  {
    if addresses != [] {
      var st := resolve(item, addresses[0], first);
      var rest := Replayed(resolve, st.storage, addresses[1..], first + 1);
      var r := Replayed(resolve, item, addresses, first);
      ReplayedKeeps(resolve, look, st.storage, addresses[1..], first + 1);
      KeepsByTransitive(look, item, st.storage, rest.storage);
      forall i | 0 < i < |addresses| && look(item, addresses[i]).Some?
        ensures r.locations[i] == look(item, addresses[i])
      {
        assert addresses[1..][i - 1] == addresses[i];
        assert r.locations[i] == rest.locations[i - 1];
      }
    }
  }

  /** An inert run changes nothing and answers each address from the cache. */
  lemma {:induction false} ReplayedInert(resolve: Caller, look: Look, item: StoredItem, addresses: seq<string>, first: nat)
    requires Inert(resolve, look)
    ensures var r := Replayed(resolve, item, addresses, first);
      && r.storage == item && r.sent == []
      && forall i :: 0 <= i < |addresses| ==> r.locations[i] == look(item, addresses[i])
    decreases |addresses|
  {
    if addresses != [] {
      var st := resolve(item, addresses[0], first);
      var rest := Replayed(resolve, item, addresses[1..], first + 1);
      var r := Replayed(resolve, item, addresses, first);
      ReplayedInert(resolve, look, item, addresses[1..], first + 1);
      forall i | 0 < i < |addresses|
        ensures r.locations[i] == look(item, addresses[i])
      {
        assert addresses[1..][i - 1] == addresses[i];
        assert r.locations[i] == rest.locations[i - 1];
      }
    }
  }

  /** When every address is cached, a cache-first run sends nothing and writes nothing. */
  lemma {:induction false} ReplayedWarm(resolve: Caller, look: Look, item: StoredItem, addresses: seq<string>, first: nat)
    requires CacheFirst(resolve, look)
    requires forall i :: 0 <= i < |addresses| ==> look(item, addresses[i]).Some?
    ensures Replayed(resolve, item, addresses, first).sent == []
    ensures Replayed(resolve, item, addresses, first).storage == item
    decreases |addresses|
  {
    if addresses != [] {
      var st := resolve(item, addresses[0], first);
      assert forall i :: 0 <= i < |addresses| - 1 ==> addresses[1..][i] == addresses[i + 1];
      ReplayedWarm(resolve, look, item, addresses[1..], first + 1);
    }
  }

  /** A call for an address that was not cached, and whose key no earlier call
      of the run used, asks the service and returns what its reply yields;
      it is call number `k` overall. */
  lemma {:induction false} ReplayedFresh(resolve: Caller, look: Look, key: Key, attempt: nat -> Attempt,
                                        item: StoredItem, addresses: seq<string>, first: nat, i: nat, k: nat)
    requires HitsFirst(resolve, look) && AsksService(resolve, look, key, attempt)
    requires i < |addresses| && look(item, addresses[i]).None? && k == first + i
    requires forall j :: 0 <= j < i ==> key(addresses[j]) != key(addresses[i])
    ensures Replayed(resolve, item, addresses, first).locations[i] == Interpret(attempt(k).reply, attempt(k).now)
    decreases |addresses|
  {
    var st := resolve(item, addresses[0], first);
    var r := Replayed(resolve, item, addresses, first);
    ReplayedHead(resolve, item, addresses, first);
    if i == 0 {
      assert k == first && look(item, addresses[0]).None?;
      assert st.location == Interpret(attempt(k).reply, attempt(k).now);
    } else {
      var rest := Replayed(resolve, st.storage, addresses[1..], first + 1);
      FreshAfterHead(resolve, look, key, attempt, item, addresses, first, i);
      ReplayedFresh(resolve, look, key, attempt, st.storage, addresses[1..], first + 1, i - 1, k);
      assert r.locations[i] == rest.locations[i - 1];
    }
  }

  /** After the first call, address `i` is still uncached and still has no
      earlier address with its key. */
  lemma FreshAfterHead(resolve: Caller, look: Look, key: Key, attempt: nat -> Attempt,
                       item: StoredItem, addresses: seq<string>, first: nat, i: nat)
    requires HitsFirst(resolve, look) && AsksService(resolve, look, key, attempt)
    requires 0 < i < |addresses| && look(item, addresses[i]).None?
    requires forall j :: 0 <= j < i ==> key(addresses[j]) != key(addresses[i])
    ensures var tail := addresses[1..];
      && look(resolve(item, addresses[0], first).storage, tail[i - 1]).None?
      && forall j :: 0 <= j < i - 1 ==> key(tail[j]) != key(tail[i - 1])
  {
    var st := resolve(item, addresses[0], first);
    var tail := addresses[1..];
    if look(item, addresses[0]).Some? {
      assert st.storage == item;
    } else {
      assert key(addresses[i]) != key(addresses[0]);
    }
    forall j | 0 <= j < i - 1
      ensures key(tail[j]) != key(tail[i - 1])
    {
      assert tail[j] == addresses[j + 1];
    }
  }

  /** The query of each address, in order. */
  function Queries(addresses: seq<string>): (q: seq<string>)
    ensures |q| == |addresses| && forall i :: 0 <= i < |addresses| ==> q[i] == ServiceQuery(addresses[i])
  {
    seq(|addresses|, i requires 0 <= i < |addresses| => ServiceQuery(addresses[i]))
  }

  /** A run over uncached addresses with pairwise different keys, each miss
      asking the service, sends exactly one query per address, in order. */
  lemma {:induction false} ReplayedSent(resolve: Caller, look: Look, key: Key, attempt: nat -> Attempt,
                                       item: StoredItem, addresses: seq<string>, first: nat)
    requires HitsFirst(resolve, look) && AsksService(resolve, look, key, attempt)
    requires forall i :: 0 <= i < |addresses| ==> look(item, addresses[i]).None?
    requires forall i, j :: 0 <= i < j < |addresses| ==> key(addresses[i]) != key(addresses[j])
    ensures Replayed(resolve, item, addresses, first).sent == Queries(addresses)
    decreases |addresses|
  {
    if addresses != [] {
      var st := resolve(item, addresses[0], first);
      var tail := addresses[1..];
      assert forall j :: 0 <= j < |tail| ==> tail[j] == addresses[j + 1];
      assert forall j :: 0 <= j < |tail| ==> key(addresses[0]) != key(tail[j]);
      ReplayedSent(resolve, look, key, attempt, st.storage, tail, first + 1);
      assert Queries(addresses) == [ServiceQuery(addresses[0])] + Queries(tail);
    }
  }

  class Geocoder {
    /** The configured service credential; empty when none is configured. */
    const apiKey: string
    /** The local storage item holding the cache. */
    var storage: StoredItem
    /** The queries sent to the service, in order. */
    ghost var requests: seq<string>

    constructor (apiKey: string, storage: StoredItem)
      ensures this.apiKey == apiKey && this.storage == storage && requests == []
    {
      this.apiKey := apiKey;
      this.storage := storage;
      requests := [];
    }

    function GetCachedLocation(address: string): Option<Location>
      reads this
    {
      Lookup(storage, address)
    }

    function GetCacheStats(): (r: CacheStats)
      reads this
      ensures r.entries == |r.addresses| && r.addresses == LoadCache(storage).entries.Keys
    {
      Stats(storage)
    }

    /** `saveCache`: a failing write is swallowed and leaves storage as it was. */
    method SaveCache(cache: Cache, succeeds: bool)
      modifies this`storage
      ensures storage == if succeeds then Stored(cache) else old(storage)
    {
      if succeeds {
        storage := Stored(cache);
      }
    }

    /** `clearGeocodeCache` */
    method ClearGeocodeCache()
      modifies this`storage
      ensures storage == Missing
      ensures forall a :: GetCachedLocation(a) == None
    {
      storage := Missing;
    }

    /** `geocodeAddress`: cache first; fail fast without a key; otherwise ask
        the service and write a success through to the cache. */
    method GeocodeAddress(address: string, attempt: Attempt) returns (r: Option<Location>)
      modifies this`storage, this`requests
      ensures old(GetCachedLocation(address)).Some? ==>
                r == old(GetCachedLocation(address)) && storage == old(storage) && requests == old(requests)
      ensures old(GetCachedLocation(address)).None? && apiKey == "" ==>
                r == None && storage == old(storage) && requests == old(requests)
      ensures old(GetCachedLocation(address)).None? && apiKey != "" ==>
                && requests == old(requests) + [ServiceQuery(address)]
                && r == Interpret(attempt.reply, attempt.now)
                && storage == (if r.Some? && attempt.saveSucceeds then Written(old(storage), address, r.value)
                               else old(storage))
      ensures Keeps(old(storage), storage)
      ensures var s := Resolution(apiKey, old(storage), address, attempt);
                r == s.location && storage == s.storage && requests == old(requests) + s.sent
    {
      var cached := GetCachedLocation(address);
      if cached.Some? {
        return cached;
      }
      if apiKey == "" {
        return None;
      }
      var fullAddress := ServiceQuery(address);
      requests := requests + [fullAddress];
      r := Interpret(attempt.reply, attempt.now);
      if r.Some? {
        WriteKeeps(storage, address, r.value);
        var cache := LoadCache(storage);
        cache := cache.(entries := cache.entries[NormalizeAddress(address) := r.value]);
        SaveCache(cache, attempt.saveSucceeds);
      }
    }

    /** A successful, persisted resolution turns the next request for the
        same address, or any address with the same key, into a cache hit. */
    method ResolveTwice(address: string, again: string, first: Attempt, second: Attempt)
      returns (r1: Option<Location>, r2: Option<Location>)
      requires NormalizeAddress(again) == NormalizeAddress(address)
      requires GetCachedLocation(address).None? && apiKey != "" && first.saveSucceeds
      modifies this`storage, this`requests
      ensures r1 == Interpret(first.reply, first.now)
      ensures r1.Some? ==> r2 == r1 && requests == old(requests) + [ServiceQuery(address)]
    {
      r1 := GeocodeAddress(address, first);
      if r1.Some? {
        LookupByKey(storage, address, again);
        ReadAfterWrite(old(storage), address, r1.value, address);
      }
      r2 := GeocodeAddress(again, second);
    }

    /** One batch of `geocodeAddresses`: resolves each address of the batch in
        turn, reporting progress after each; call `first + k` meets `attempt(first + k)`. */
    method GeocodeBatch(batch: seq<string>, attempt: nat -> Attempt, first: nat, completedBefore: nat)
      returns (locations: seq<Option<Location>>, reports: seq<nat>)
      modifies this`storage, this`requests
      ensures var r := ResolveAll(apiKey, old(storage), batch, attempt, first);
                locations == r.locations && storage == r.storage && requests == old(requests) + r.sent
      ensures |reports| == |batch| && forall k :: 0 <= k < |batch| ==> reports[k] == completedBefore + k + 1
    {
      ghost var start := storage;
      locations, reports := [], [];
      var j := 0;
      while j < |batch|
        invariant 0 <= j <= |batch|
        invariant |reports| == j && forall k :: 0 <= k < j ==> reports[k] == completedBefore + k + 1
        invariant var r := ResolveAll(apiKey, start, batch[..j], attempt, first);
                    locations == r.locations && storage == r.storage && requests == old(requests) + r.sent
      {
        ResolvedSnoc(apiKey, start, batch, attempt, first, j);
        ghost var prev := ResolveAll(apiKey, start, batch[..j], attempt, first);
        var location := GeocodeAddress(batch[j], attempt(first + j));
        AppendAssoc(old(requests), prev.sent, Resolution(apiKey, prev.storage, batch[j], attempt(first + j)).sent);
        reports := reports + [completedBefore + j + 1];
        locations := locations + [location];
        j := j + 1;
      }
      assert batch[..j] == batch;
    }

    /** One turn of the batch loop of `geocodeAddresses`: resolves and
        records `addresses[i..end]`, carrying the run of `addresses[..i]`
        over to the run of `addresses[..end]`. */
    method RunBatch(addresses: seq<string>, attempt: nat -> Attempt, i: nat, end: nat,
                    results: map<string, Option<Location>>, ghost start: StoredItem, ghost requests0: seq<string>)
      returns (newResults: map<string, Option<Location>>, reports: seq<nat>)
      requires i <= end <= |addresses|
      requires var r := ResolveAll(apiKey, start, addresses[..i], attempt, 0);
        results == BatchMap(addresses[..i], r.locations) && storage == r.storage && requests == requests0 + r.sent
      modifies this`storage, this`requests
      ensures var r := ResolveAll(apiKey, start, addresses[..end], attempt, 0);
        newResults == BatchMap(addresses[..end], r.locations) && storage == r.storage && requests == requests0 + r.sent
      ensures |reports| == end - i && forall k :: 0 <= k < end - i ==> reports[k] == i + k + 1
    {
      var batch := addresses[i..end];
      ghost var before := ResolveAll(apiKey, start, addresses[..i], attempt, 0);
      ghost var rb := ResolveAll(apiKey, storage, batch, attempt, i);
      ResolvedInTurn(apiKey, start, addresses, attempt, i, end);
      var locations;
      locations, reports := GeocodeBatch(batch, attempt, i, i);
      newResults := RecordBatch(results, batch, locations);
      assert addresses[..end] == addresses[..i] + batch;
      BatchMapAppend(addresses[..i], before.locations, batch, locations);
      AppendAssoc(requests0, before.sent, rb.sent);
    }

    /** `geocodeAddresses`: batches of five, one progress report per address,
        a pause between batches but not after the last. Call number `i` meets
        the environment `attempt(i)`. */
    method GeocodeAddresses(addresses: seq<string>, attempt: nat -> Attempt)
      returns (results: map<string, Option<Location>>, progress: seq<nat>, pauses: nat)
      modifies this`storage, this`requests
      ensures var r := ResolveAll(apiKey, old(storage), addresses, attempt, 0);
        && results == BatchMap(addresses, r.locations)
        && storage == r.storage && requests == old(requests) + r.sent
      ensures results.Keys == set a | a in addresses
      ensures |progress| == |addresses| && forall k :: 0 <= k < |progress| ==> progress[k] == k + 1
      ensures pauses == if |addresses| == 0 then 0 else (|addresses| - 1) / BATCH_SIZE
      ensures Keeps(old(storage), storage)
      ensures forall a :: a in addresses && Lookup(old(storage), a).Some? ==> results[a] == Lookup(old(storage), a)
      ensures forall i :: 0 <= i < |addresses| && FreshAt(old(storage), addresses, i) ==>
        results[addresses[i]] == if apiKey == "" then None else Interpret(attempt(i).reply, attempt(i).now)
      ensures apiKey == "" ==> storage == old(storage) && requests == old(requests)
      ensures (forall a :: a in addresses ==> Lookup(old(storage), a).Some?) ==> requests == old(requests)
      ensures |requests| <= |old(requests)| + |addresses|
      ensures apiKey != "" && (forall i :: 0 <= i < |addresses| ==> Lookup(old(storage), addresses[i]).None?)
              && (forall i, j :: 0 <= i < j < |addresses| ==> NormalizeAddress(addresses[i]) != NormalizeAddress(addresses[j]))
              ==> requests == old(requests) + Queries(addresses)
    {
      ghost var start := storage;
      results, progress, pauses := BatchLoop(addresses, attempt);
      Resolved(apiKey, start, addresses, attempt);
    }

    /** The batch loop of `geocodeAddresses`. */
    method BatchLoop(addresses: seq<string>, attempt: nat -> Attempt)
      returns (results: map<string, Option<Location>>, progress: seq<nat>, pauses: nat)
      modifies this`storage, this`requests
      ensures var r := ResolveAll(apiKey, old(storage), addresses, attempt, 0);
        && results == BatchMap(addresses, r.locations)
        && storage == r.storage && requests == old(requests) + r.sent
      ensures |progress| == |addresses| && forall k :: 0 <= k < |progress| ==> progress[k] == k + 1
      ensures pauses == if |addresses| == 0 then 0 else (|addresses| - 1) / BATCH_SIZE
    {
      ghost var start := storage;
      var n := |addresses|;
      var completed := 0;
      results, progress, pauses := map[], [], 0;
      var i := 0;
      while i < n
        invariant i % 5 == 0
        invariant completed == if i <= n then i else n
        invariant pauses == if i == 0 then 0 else if i < n then i / 5 else (n - 1) / 5
        invariant |progress| == completed && forall k :: 0 <= k < completed ==> progress[k] == k + 1
        invariant var r := ResolveAll(apiKey, start, addresses[..completed], attempt, 0);
          results == BatchMap(addresses[..completed], r.locations) && storage == r.storage
          && requests == old(requests) + r.sent
      {
        var end := if i + BATCH_SIZE < n then i + BATCH_SIZE else n;
        var reports;
        results, reports := RunBatch(addresses, attempt, i, end, results, start, old(requests));
        completed := end;
        progress := progress + reports;
        PauseCount(i, n);
        if i + BATCH_SIZE < n {
          pauses := pauses + 1;
        }
        i := i + BATCH_SIZE;
      }
      assert addresses[..completed] == addresses;
    }
  }

  /** The calls for the first `j + 1` addresses are those for the first `j`,
      then call number `first + j` from the storage they left. */
  lemma ResolvedSnoc(apiKey: string, start: StoredItem, addresses: seq<string>, attempt: nat -> Attempt,
                     first: nat, j: nat)
    requires j < |addresses|
    ensures var prev := ResolveAll(apiKey, start, addresses[..j], attempt, first);
            var s := Resolution(apiKey, prev.storage, addresses[j], attempt(first + j));
            ResolveAll(apiKey, start, addresses[..j + 1], attempt, first) ==
              Replay(prev.locations + [s.location], s.storage, prev.sent + s.sent)
  {
    assert addresses[..j + 1] == addresses[..j] + [addresses[j]];
    assert |addresses[..j]| == j;
    ReplayedSnoc(Resolver(apiKey, attempt), start, addresses[..j], addresses[j], first);
  }

  /** The calls for a longer prefix are those for the shorter one, then those
      for the stretch between, numbered on from where the first ones stopped. */
  lemma ResolvedInTurn(apiKey: string, start: StoredItem, addresses: seq<string>, attempt: nat -> Attempt,
                       i: nat, end: nat)
    requires i <= end <= |addresses|
    ensures var before := ResolveAll(apiKey, start, addresses[..i], attempt, 0);
            var rb := ResolveAll(apiKey, before.storage, addresses[i..end], attempt, i);
            ResolveAll(apiKey, start, addresses[..end], attempt, 0) ==
              Replay(before.locations + rb.locations, rb.storage, before.sent + rb.sent)
  {
    assert addresses[..end] == addresses[..i] + addresses[i..end];
    ReplayedAppend(Resolver(apiKey, attempt), start, addresses[..i], addresses[i..end], 0);
  }

  /** The pause count of the batch loop: one pause after every batch but the last. */
  lemma PauseCount(i: nat, n: nat)
    requires i % 5 == 0 && i < n
    ensures (i + 5) % 5 == 0
    ensures (if i == 0 then 0 else i / 5) + (if i + 5 < n then 1 else 0) ==
            if i + 5 < n then (i + 5) / 5 else (n - 1) / 5
  {
  }

  /** The entries one batch contributes to the result map, applied in batch
      order, so that a later occurrence of an address overwrites an earlier one. */
  function BatchMap(batch: seq<string>, locations: seq<Option<Location>>): map<string, Option<Location>>
    requires |locations| == |batch|
    decreases |batch|
  {
    if batch == [] then map[]
    else
      var n := |batch| - 1;
      BatchMap(batch[..n], locations[..n])[batch[n] := locations[n]]
  }

  /** A batch contributes exactly its addresses, each with the outcome of one
      of its occurrences. */
  lemma {:induction false} BatchMapShape(batch: seq<string>, locations: seq<Option<Location>>)
    requires |locations| == |batch|
    ensures BatchMap(batch, locations).Keys == set a | a in batch
    ensures forall a :: a in batch ==>
      exists k :: 0 <= k < |batch| && batch[k] == a && BatchMap(batch, locations)[a] == locations[k]
    decreases |batch|
  {
    if batch != [] {
      var n := |batch| - 1;
      BatchMapShape(batch[..n], locations[..n]);
      assert batch == batch[..n] + [batch[n]];
      forall a | a in batch
        ensures exists k :: 0 <= k < |batch| && batch[k] == a && BatchMap(batch, locations)[a] == locations[k]
      {
        if a == batch[n] {
          assert batch[n] == a && BatchMap(batch, locations)[a] == locations[n];
        } else {
          assert a in batch[..n];
          var k :| 0 <= k < n && batch[..n][k] == a && BatchMap(batch[..n], locations[..n])[a] == locations[..n][k];
          assert batch[k] == a && BatchMap(batch, locations)[a] == locations[k];
        }
      }
    }
  }

  /** The last occurrence of an address decides its outcome. */
  lemma {:induction false} BatchMapLastWins(batch: seq<string>, locations: seq<Option<Location>>, k: nat)
    requires |locations| == |batch| && k < |batch|
    requires batch[k] !in batch[k + 1..]
    ensures batch[k] in BatchMap(batch, locations) && BatchMap(batch, locations)[batch[k]] == locations[k]
    decreases |batch|
  {
    var n := |batch| - 1;
    if k < n {
      assert batch[n] in batch[k + 1..];
      assert batch[..n][k + 1..] == batch[k + 1..n];
      BatchMapLastWins(batch[..n], locations[..n], k);
    }
  }

  /** Recording two consecutive stretches is recording them one after the other. */
  lemma {:induction false} BatchMapAppend(a: seq<string>, la: seq<Option<Location>>,
                                         b: seq<string>, lb: seq<Option<Location>>)
    requires |la| == |a| && |lb| == |b|
    ensures BatchMap(a + b, la + lb) == BatchMap(a, la) + BatchMap(b, lb)
    decreases |b|
  {
    if b == [] {
      assert a + b == a && la + lb == la;
    } else {
      var n := |b| - 1;
      BatchMapAppend(a, la, b[..n], lb[..n]);
      assert (a + b)[..|a| + n] == a + b[..n];
      assert (la + lb)[..|la| + n] == la + lb[..n];
    }
  }

  /** Records the outcomes of one batch in the result map, in batch order. */
  method RecordBatch(results: map<string, Option<Location>>, batch: seq<string>, locations: seq<Option<Location>>)
    returns (r: map<string, Option<Location>>)
    requires |locations| == |batch|
    ensures r == results + BatchMap(batch, locations)
  {
    r := results;
    var k := 0;
    while k < |batch|
      invariant 0 <= k <= |batch|
      invariant r == results + BatchMap(batch[..k], locations[..k])
    {
      assert batch[..k + 1][..k] == batch[..k] && locations[..k + 1][..k] == locations[..k];
      r := r[batch[k] := locations[k]];
      k := k + 1;
    }
    assert batch[..k] == batch && locations[..k] == locations;
  }

  /** Address `i` is the last occurrence of its string, was not cached, and no
      earlier address shares its key: its entry in the result map is decided
      by the service's reply to call `i`. */
  ghost predicate FreshAt(item: StoredItem, addresses: seq<string>, i: int)
    requires 0 <= i < |addresses|
  {
    && addresses[i] !in addresses[i + 1..]
    && Lookup(item, addresses[i]).None?
    && forall j :: 0 <= j < i ==> NormalizeAddress(addresses[j]) != NormalizeAddress(addresses[i])
  }

  /** The result map of a run of `geocodeAddresses` against storage `item`
      holds exactly its addresses and answers cached ones from the cache;
      the run keeps every cached address and sends one query per address at most. */
  lemma ResolvedCached(apiKey: string, item: StoredItem, addresses: seq<string>, attempt: nat -> Attempt)
    ensures var r := ResolveAll(apiKey, item, addresses, attempt, 0);
            var results := BatchMap(addresses, r.locations);
      && results.Keys == (set a | a in addresses)
      && Keeps(item, r.storage) && |r.sent| <= |addresses|
      && (forall a :: a in addresses && Lookup(item, a).Some? ==> results[a] == Lookup(item, a))
  {
    var resolve := Resolver(apiKey, attempt);
    var r := Replayed(resolve, item, addresses, 0);
    var results := BatchMap(addresses, r.locations);
    ResolverBehaves(apiKey, attempt);
    BatchMapShape(addresses, r.locations);
    ReplayedKeeps(resolve, Lookup, item, addresses, 0);
    KeepsByLookup(item, r.storage);
    forall a | a in addresses && Lookup(item, a).Some?
      ensures results[a] == Lookup(item, a)
    {
      var k :| 0 <= k < |addresses| && addresses[k] == a && results[a] == r.locations[k];
    }
  }

  /** A fresh address of a run of `geocodeAddresses` maps to what the reply
      to its own call yields, and to nothing without a key. */
  lemma ResolvedFresh(apiKey: string, item: StoredItem, addresses: seq<string>, attempt: nat -> Attempt, i: nat)
    requires i < |addresses| && FreshAt(item, addresses, i)
    ensures var results := BatchMap(addresses, ResolveAll(apiKey, item, addresses, attempt, 0).locations);
      && addresses[i] in results
      && results[addresses[i]] == if apiKey == "" then None else Interpret(attempt(i).reply, attempt(i).now)
  {
    var locations := ResolveAll(apiKey, item, addresses, attempt, 0).locations;
    ResolvedFreshLocation(apiKey, item, addresses, attempt, i);
    assert addresses[i] !in addresses[i + 1..];
    BatchMapLastWins(addresses, locations, i);
  }

  /** The call for an address that misses the cache, and whose key no earlier
      address shares, returns what the reply to it yields, and nothing
      without a key. */
  lemma ResolvedFreshLocation(apiKey: string, item: StoredItem, addresses: seq<string>, attempt: nat -> Attempt, i: nat)
    requires i < |addresses| && Lookup(item, addresses[i]).None?
    requires forall j :: 0 <= j < i ==> NormalizeAddress(addresses[j]) != NormalizeAddress(addresses[i])
    ensures ResolveAll(apiKey, item, addresses, attempt, 0).locations[i] ==
      if apiKey == "" then None else Interpret(attempt(i).reply, attempt(i).now)
  {
    var resolve := Resolver(apiKey, attempt);
    ResolverBehaves(apiKey, attempt);
    if apiKey == "" {
      ReplayedInert(resolve, Lookup, item, addresses, 0);
    } else {
      ReplayedFresh(resolve, Lookup, NormalizeAddress, attempt, item, addresses, 0, i, i);
    }
  }

  /** With a key, a run over addresses that all miss the cache and have
      pairwise different keys sends exactly one query per address, in order. */
  lemma ResolvedSent(apiKey: string, item: StoredItem, addresses: seq<string>, attempt: nat -> Attempt)
    requires apiKey != ""
    requires forall i :: 0 <= i < |addresses| ==> Lookup(item, addresses[i]).None?
    requires forall i, j :: 0 <= i < j < |addresses| ==> NormalizeAddress(addresses[i]) != NormalizeAddress(addresses[j])
    ensures ResolveAll(apiKey, item, addresses, attempt, 0).sent == Queries(addresses)
  {
    ResolverBehaves(apiKey, attempt);
    ReplayedSent(Resolver(apiKey, attempt), Lookup, NormalizeAddress, attempt, item, addresses, 0);
  }

  /** A run keeps every cached address and sends at most one query per call. */
  lemma ResolvedKeeps(apiKey: string, item: StoredItem, addresses: seq<string>, attempt: nat -> Attempt)
    ensures var r := ResolveAll(apiKey, item, addresses, attempt, 0);
      Keeps(item, r.storage) && |r.sent| <= |addresses|
  {
    var resolve := Resolver(apiKey, attempt);
    ResolverBehaves(apiKey, attempt);
    ReplayedKeeps(resolve, Lookup, item, addresses, 0);
    KeepsByLookup(item, Replayed(resolve, item, addresses, 0).storage);
  }

  /** Without a key a run of `geocodeAddresses` changes nothing and sends
      nothing; with every address cached it sends nothing. */
  lemma ResolvedQuiet(apiKey: string, item: StoredItem, addresses: seq<string>, attempt: nat -> Attempt)
    ensures var r := ResolveAll(apiKey, item, addresses, attempt, 0);
      && (apiKey == "" ==> r.storage == item && r.sent == [] &&
                           forall i :: 0 <= i < |addresses| ==> r.locations[i] == Lookup(item, addresses[i]))
      && ((forall a :: a in addresses ==> Lookup(item, a).Some?) ==> r.sent == [])
  {
    var resolve := Resolver(apiKey, attempt);
    ResolverBehaves(apiKey, attempt);
    if apiKey == "" {
      ReplayedInert(resolve, Lookup, item, addresses, 0);
    }
    if forall a :: a in addresses ==> Lookup(item, a).Some? {
      ReplayedWarm(resolve, Lookup, item, addresses, 0);
    }
  }

  /** What a run of `geocodeAddresses` against storage `item` yields: one
      entry per address, cached addresses answered from the cache, each fresh
      address answered by the reply to its own call (nothing without a key),
      every cached address kept, and the queries it sends. */
  lemma Resolved(apiKey: string, item: StoredItem, addresses: seq<string>, attempt: nat -> Attempt)
    ensures var r := ResolveAll(apiKey, item, addresses, attempt, 0);
            var results := BatchMap(addresses, r.locations);
      && results.Keys == (set a | a in addresses)
      && Keeps(item, r.storage) && |r.sent| <= |addresses|
      && (forall a :: a in addresses && Lookup(item, a).Some? ==> results[a] == Lookup(item, a))
      && (forall i :: 0 <= i < |addresses| && FreshAt(item, addresses, i) ==>
            results[addresses[i]] == if apiKey == "" then None else Interpret(attempt(i).reply, attempt(i).now))
      && (apiKey == "" ==> r.storage == item && r.sent == [])
      && ((forall a :: a in addresses ==> Lookup(item, a).Some?) ==> r.sent == [])
      && (apiKey != "" && (forall i :: 0 <= i < |addresses| ==> Lookup(item, addresses[i]).None?)
          && (forall i, j :: 0 <= i < j < |addresses| ==> NormalizeAddress(addresses[i]) != NormalizeAddress(addresses[j]))
          ==> r.sent == Queries(addresses))
  {
    ResolvedCached(apiKey, item, addresses, attempt);
    ResolvedQuiet(apiKey, item, addresses, attempt);
    if apiKey != "" && (forall i :: 0 <= i < |addresses| ==> Lookup(item, addresses[i]).None?)
       && (forall i, j :: 0 <= i < j < |addresses| ==> NormalizeAddress(addresses[i]) != NormalizeAddress(addresses[j])) {
      ResolvedSent(apiKey, item, addresses, attempt);
    }
    forall i | 0 <= i < |addresses| && FreshAt(item, addresses, i)
      ensures BatchMap(addresses, ResolveAll(apiKey, item, addresses, attempt, 0).locations)[addresses[i]] ==
              if apiKey == "" then None else Interpret(attempt(i).reply, attempt(i).now)
    {
      ResolvedFresh(apiKey, item, addresses, attempt, i);
    }
  }
}
