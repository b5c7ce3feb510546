/** Which SKUs the text of sku_ids names, and what the aggregate then shows. */
module IdLists {
  import opened CacheLevels
  import opened Numerals
  import opened Wrappers

  // ---------- The fields of a text ----------

  /** The fields with commas between them. */
  function Csv(fields: seq<string>): string {
    if fields == [] then ""
    else if |fields| == 1 then fields[0]
    else fields[0] + "," + Csv(fields[1..])
  }

  predicate NoCommas(fields: seq<string>) { forall f <- fields :: ',' !in f }

  /** Splitting loses nothing: the fields hold no comma, and with commas between them they are the text. */
  lemma {:induction false} FieldsMakeText(text: string)
    ensures Fields(text) != [] && NoCommas(Fields(text)) && Csv(Fields(text)) == text
  {
    if text != "" {
      FieldsMakeText(text[1..]);
      var rest := Fields(text[1..]);
      if text[0] == ',' {
        assert ([""] + rest)[1..] == rest;
        assert "" + "," + text[1..] == text;
      } else {
        var fields := [[text[0]] + rest[0]] + rest[1..];
        assert fields[1..] == rest[1..];
        assert [text[0]] + text[1..] == text;
        if |rest| > 1 {
          assert [text[0]] + rest[0] + "," + Csv(rest[1..]) == [text[0]] + (rest[0] + "," + Csv(rest[1..]));
        }
      }
    }
  }

  lemma {:induction false} OneField(f: string)
    requires ',' !in f
    ensures Fields(f) == [f]
  {
    if f != "" {
      assert forall c <- f[1..] :: c in f;
      OneField(f[1..]);
      assert [f[0]] + f[1..] == f && [f[1..]][1..] == [];
    }
  }

  lemma {:induction false} FieldThenRest(f: string, rest: string)
    requires ',' !in f
    ensures Fields(f + "," + rest) == [f] + Fields(rest)
  {
    var text := f + "," + rest;
    if f == "" {
      assert text[0] == ',' && text[1..] == rest;
    } else {
      assert forall c <- f[1..] :: c in f;
      FieldThenRest(f[1..], rest);
      assert text[1..] == f[1..] + "," + rest && text[0] == f[0];
      assert [f[0]] + f[1..] == f && ([f[1..]] + Fields(rest))[1..] == Fields(rest);
    }
  }

  /** No other list of fields makes the text. */
  lemma {:induction false} TextHasTheseFields(fields: seq<string>)
    requires fields != [] && NoCommas(fields)
    ensures Fields(Csv(fields)) == fields
    decreases |fields|
  {
    if |fields| == 1 {
      OneField(fields[0]);
    } else {
      assert forall f <- fields[1..] :: f in fields;
      TextHasTheseFields(fields[1..]);
      FieldThenRest(fields[0], Csv(fields[1..]));
    }
  }

  function Empties(n: nat): seq<string> { seq(n, _ => "") }

  /** Exactly the empty fields at the end are dropped. */
  lemma {:induction false} OnlyEmptyEndIsDropped(fields: seq<string>)
    ensures var kept := DropTrailing(fields);
            && |kept| <= |fields| && fields == kept + Empties(|fields| - |kept|)
            && (kept != [] ==> kept[|kept| - 1] != "")
    decreases |fields|
  {
    if fields != [] && fields[|fields| - 1] == "" {
      OnlyEmptyEndIsDropped(fields[..|fields| - 1]);
      assert fields == fields[..|fields| - 1] + [""];
    } else {
      assert fields == fields + Empties(0);
    }
  }

  // ---------- The number in a field ----------

  predicate Blank(s: string) { forall c <- s :: c <= ' ' }

  lemma {:induction false} LeftTrimmed(l: string, s: string)
    requires Blank(l) && s != "" && s[0] > ' '
    ensures TrimLeft(l + s) == s
  {
    if l == "" {
      assert l + s == s;
    } else {
      assert (l + s)[1..] == l[1..] + s && (l + s)[0] == l[0];
      assert l[0] in l && forall c <- l[1..] :: c in l;
      LeftTrimmed(l[1..], s);
    }
  }

  lemma {:induction false} RightTrimmed(s: string, r: string)
    requires Blank(r) && s != "" && s[|s| - 1] > ' '
    ensures TrimRight(s + r) == s
    decreases |r|
  {
    if r == "" {
      assert s + r == s;
    } else {
      var n := |r| - 1;
      assert (s + r)[..|s + r| - 1] == s + r[..n] && (s + r)[|s + r| - 1] == r[n];
      assert r[n] in r && forall c <- r[..n] :: c in r;
      RightTrimmed(s, r[..n]);
    }
  }

  lemma {:induction false} DecimalIsRead(n: nat)
    ensures AllDigits(Decimal(n)) && Digits(Decimal(n)) == n
  {
    DecimalDigits(n);
    var s := Decimal(n);
    if n >= 10 {
      DecimalIsRead(n / 10);
      assert s[..|s| - 1] == Decimal(n / 10) && s[|s| - 1] == DigitChar(n % 10);
    } else {
      assert s[..|s| - 1] == "" && Digits("") == 0;
    }
  }

  lemma SignedIsRead(n: int)
    requires InLong(n)
    ensures ParseLong(Signed(n)) == Some(n)
  {
    DecimalIsRead(if n < 0 then -n else n);
    if n < 0 {
      var s := Signed(n);
      assert s[0] == '-' && s[1..] == Decimal(-n) && s[0] in s;
    }
  }

  function Zeros(n: nat): string { seq(n, _ => '0') }

  lemma OneMoreDigit(zeros: nat, m: nat, d: nat) returns (zeros': nat)
    requires d < 10
    ensures Zeros(zeros) + Decimal(m) + [DigitChar(d)] == Zeros(zeros') + Decimal(10 * m + d)
  {
    if m == 0 {
      zeros' := zeros + 1;
      assert Decimal(0) == [DigitChar(0)] && Zeros(zeros) + [DigitChar(0)] == Zeros(zeros + 1);
    } else {
      zeros' := zeros;
      assert (10 * m + d) / 10 == m && (10 * m + d) % 10 == d;
      assert Decimal(10 * m + d) == Decimal(m) + [DigitChar(d)];
      assert Zeros(zeros) + Decimal(m) + [DigitChar(d)] == Zeros(zeros) + (Decimal(m) + [DigitChar(d)]);
    }
  }

  lemma LastDigit(s: string)
    requires AllDigits(s)
    ensures var n := |s| - 1;
            s == s[..n] + [DigitChar(Digit(s[n]))] && (n > 0 ==> AllDigits(s[..n]))
  {
    var n := |s| - 1;
    assert s == s[..n] + [s[n]] && s[n] in s && forall c <- s[..n] :: c in s;
  }

  /** Digits stand for the number that they spell after any leading zeros. */
  lemma {:induction false} DigitsSpell(s: string) returns (zeros: nat)
    requires AllDigits(s)
    ensures s == Zeros(zeros) + Decimal(Digits(s))
    decreases |s|
  {
    var n := |s| - 1;
    var d := Digit(s[n]);
    LastDigit(s);
    if n == 0 {
      zeros := 0;
      assert s[..0] == "" && Digits("") == 0 && Digits(s) == d;
      assert s == Zeros(0) + Decimal(d);
    } else {
      zeros := DigitsSpell(s[..n]);
      zeros := OneMoreDigit(zeros, Digits(s[..n]), d);
    }
  }

  /** The field is the number written out, with blanks around it or none. */
  ghost predicate Names(f: string, id: SkuId) {
    InLong(id) && exists l: string, r: string :: Padded(f, l, id, r)
  }

  ghost predicate Padded(f: string, l: string, id: SkuId, r: string) {
    Blank(l) && Blank(r) && f == l + Signed(id) + r
  }

  lemma SignedIsSolid(n: int)
    ensures var s := Signed(n); s != "" && s[0] > ' ' && s[|s| - 1] > ' ' && ',' !in s
  {
    DecimalDigits(if n < 0 then -n else n);
  }

  lemma NamedIsRead(f: string, id: SkuId)
    requires Names(f, id)
    ensures ParseLong(Trim(f)) == Some(id) && ',' !in f && NotBlank(f) && f != ""
  {
    var l: string, r: string :| Padded(f, l, id, r);
    var s := Signed(id);
    SignedIsSolid(id);
    assert f == l + (s + r);
    LeftTrimmed(l, s + r);
    RightTrimmed(s, r);
    SignedIsRead(id);
    assert s[0] in f;
  }

  // ---------- The list ----------

  ghost predicate NamesAll(fields: seq<string>, ids: seq<SkuId>) {
    |fields| == |ids| && forall k | 0 <= k < |ids| :: Names(fields[k], ids[k])
  }

  /** The rows of the ids that exist, in the order of the ids. */
  function RowsOf(skus: map<SkuId, Sku>, ids: seq<SkuId>): seq<Sku> {
    if ids == [] then [] else (if ids[0] in skus then [skus[ids[0]]] else []) + RowsOf(skus, ids[1..])
  }

  lemma {:induction false} RowsAreRead(skus: map<SkuId, Sku>, fields: seq<string>, ids: seq<SkuId>)
    requires NamesAll(fields, ids)
    ensures SkusOf(skus, fields) == Some(RowsOf(skus, ids))
    decreases |fields|
  {
    if fields != [] {
      NamedIsRead(fields[0], ids[0]);
      RowsAreRead(skus, fields[1..], ids[1..]);
    }
  }

  lemma NotBlankInText(fields: seq<string>)
    requires fields != [] && NotBlank(fields[0])
    ensures NotBlank(Csv(fields))
  {
    var c :| c in fields[0] && c > ' ';
    assert c in Csv(fields);
  }

  /** A list of numbers with commas between them, and any number of commas after it, names these numbers in order. */
  lemma ListIsRead(fields: seq<string>, ids: seq<SkuId>, commas: nat)
    requires fields != [] && NamesAll(fields, ids)
    ensures IdFields(Csv(fields + Empties(commas))) == fields
  {
    var all := fields + Empties(commas);
    forall f | f in fields ensures ',' !in f && f != "" {
      var k :| 0 <= k < |fields| && fields[k] == f;
      NamedIsRead(f, ids[k]);
    }
    NamedIsRead(fields[0], ids[0]);
    NotBlankInText(all);
    TextHasTheseFields(all);
    EmptyEndGoes(fields, commas);
  }

  lemma {:induction false} EmptyEndGoes(fields: seq<string>, n: nat)
    requires fields != [] && fields[|fields| - 1] != ""
    ensures DropTrailing(fields + Empties(n)) == fields
  {
    var all := fields + Empties(n);
    if n == 0 {
      assert all == fields;
    } else {
      assert all[..|all| - 1] == fields + Empties(n - 1);
      EmptyEndGoes(fields, n - 1);
    }
  }

  /** The aggregate of an activity that is running shows the rows of its list, in the list's order, and no others. */
  lemma DetailShowsItsList(n: Node, a: ActivityId, fields: seq<string>, ids: seq<SkuId>, commas: nat)
    requires a in n.activities && n.activities[a].online
    requires fields != [] && NamesAll(fields, ids) && n.activities[a].skuIds == Csv(fields + Empties(commas))
    ensures InTables(n, ActivityKey(a)) == Has(Detail(n.activities[a], RowsOf(n.skus, ids)))
  {
    ListIsRead(fields, ids, commas);
    RowsAreRead(n.skus, fields, ids);
  }

  /** Nothing but blanks: an aggregate without SKUs. */
  lemma BlankListShowsNone(n: Node, a: ActivityId)
    requires a in n.activities && n.activities[a].online && Blank(n.activities[a].skuIds)
    ensures InTables(n, ActivityKey(a)) == Has(Detail(n.activities[a], []))
  {
    assert !NotBlank(n.activities[a].skuIds);
  }
}
