/**
 * `generateUuid()`: the version-4 UUID template of section 4.4 of RFC 4122,
 * `xxxxxxxx-xxxx-4xxx-yxxx-xxxxxxxxxxxx`, with every `x` replaced by a random
 * hex digit and the `y` by a digit whose two high bits are `10` (the variant of
 * section 4.1.1); the `4` is the version nibble of section 4.1.3. The random
 * nibbles (`Math.random() * 16 | 0`, one per `x` or `y`, left to right) are input.
 */
module Time {
  import opened Wrappers

  /** A value of `Math.random() * 16 | 0`. */
  type Nibble = x: int | 0 <= x < 16

  /** The template, group by group; `TemplateSpelledOut` gives it as one literal. */
  const Template := Xs(8) + "-" + Xs(4) + "-4" + Xs(3) + "-y" + Xs(3) + "-" + Xs(12)

  /** The characters the regular expression `/[xy]/g` replaces. */
  predicate IsHole(c: char) {
    c == 'x' || c == 'y'
  }

  /** How many characters of `t` are replaced. */
  function Holes(t: string): nat {
    if t == [] then 0 else (if IsHole(t[0]) then 1 else 0) + Holes(t[1..])
  }

  const HexDigits := "0123456789abcdef"

  /** `v.toString(16)` for a nibble: one lower-case hex digit. */
  function HexDigit(v: Nibble): (c: char)
    ensures '0' <= c <= '9' || 'a' <= c <= 'f'
  {
    HexDigits[v]
  }

  /** `r & 0x3 | 0x8`: the two high bits set to `10`, the two low bits kept. */
  function VariantNibble(r: Nibble): (v: Nibble)
    ensures v == 8 + r % 4
  {
    var b := ((r as bv8) & 0x3) | 0x8;
    assert b as int == 8 + r % 4 by {
      assert (r as bv8) & 0x3 == (r % 4) as bv8;
    }
    b as int
  }

  /** The value a hex digit stands for; `None` for any other character. */
  function HexValue(c: char): (r: Option<Nibble>)
    ensures r.Some? ==> HexDigit(r.value) == c
  {
    if '0' <= c <= '9' then Some(c as int - '0' as int)
    else if 'a' <= c <= 'f' then Some(c as int - 'a' as int + 10)
    else None
  }

  /** `t.replace(/[xy]/g, ...)`, consuming one nibble per replaced character. */
  function Fill(t: string, rs: seq<Nibble>): string
    requires |rs| == Holes(t)
  {
    if t == [] then ""
    else if t[0] == 'x' then [HexDigit(rs[0])] + Fill(t[1..], rs[1..])
    else if t[0] == 'y' then [HexDigit(VariantNibble(rs[0]))] + Fill(t[1..], rs[1..])
    else [t[0]] + Fill(t[1..], rs)
  }

  /**
   * Position `i` of the filled template: kept verbatim unless it is an `x` or
   * `y`, and otherwise the digit of the nibble whose rank is the number of
   * holes before `i`.
   */
  lemma {:induction false} FillAt(t: string, rs: seq<Nibble>, i: nat)
    requires |rs| == Holes(t)
    requires i < |t|
    ensures |Fill(t, rs)| == |t|
    ensures Holes(t[..i]) < |rs| || !IsHole(t[i])
    ensures t[i] == 'x' ==> Fill(t, rs)[i] == HexDigit(rs[Holes(t[..i])])
    ensures t[i] == 'y' ==> Fill(t, rs)[i] == HexDigit(VariantNibble(rs[Holes(t[..i])]))
    ensures !IsHole(t[i]) ==> Fill(t, rs)[i] == t[i]
  {
    FillLength(t, rs);
    if i > 0 {
      assert t[..i][1..] == t[1..][..i - 1];
      assert t[..i][0] == t[0];
      if IsHole(t[0]) {
        FillAt(t[1..], rs[1..], i - 1);
      } else {
        FillAt(t[1..], rs, i - 1);
      }
    } else {
      assert t[..i] == [];
    }
  }

  /** Filling keeps the length of the template. */
  lemma {:induction false} FillLength(t: string, rs: seq<Nibble>)
    requires |rs| == Holes(t)
    ensures |Fill(t, rs)| == |t|
  {
    if t != [] {
      if IsHole(t[0]) {
        FillLength(t[1..], rs[1..]);
      } else {
        FillLength(t[1..], rs);
      }
    }
  }

  /** Holes add up over concatenation. */
  lemma {:induction false} HolesAppend(a: string, b: string)
    ensures Holes(a + b) == Holes(a) + Holes(b)
  {
    if a == [] {
      assert a + b == b;
    } else {
      assert (a + b)[1..] == a[1..] + b;
      HolesAppend(a[1..], b);
    }
  }

  /** `n` copies of `x`. */
  function Xs(n: nat): (s: string)
    ensures |s| == n && forall i :: 0 <= i < n ==> s[i] == 'x'
  {
    seq(n, _ => 'x')
  }

  /** A run of `x` has as many holes as characters. */
  lemma {:induction false} HolesOfXs(n: nat)
    ensures Holes(Xs(n)) == n
  {
    if n > 0 {
      assert Xs(n)[1..] == Xs(n - 1);
      HolesOfXs(n - 1);
    }
  }

  /** The template is the string `generateUuid` replaces in. */
  lemma TemplateSpelledOut()
    ensures Template == "xxxxxxxx-xxxx-4xxx-yxxx-xxxxxxxxxxxx"
  {
  }

  /** The template has 31 holes: 32 hex digits less the fixed version digit. */
  lemma TemplateHoles()
    ensures Holes(Template) == 31
  {
    HolesAppend(Xs(8) + "-" + Xs(4) + "-4" + Xs(3) + "-y" + Xs(3) + "-", Xs(12));
    HolesAppend(Xs(8) + "-" + Xs(4) + "-4" + Xs(3) + "-y" + Xs(3), "-");
    HolesAppend(Xs(8) + "-" + Xs(4) + "-4" + Xs(3) + "-y", Xs(3));
    HolesAppend(Xs(8) + "-" + Xs(4) + "-4" + Xs(3), "-y");
    HolesAppend(Xs(8) + "-" + Xs(4) + "-4", Xs(3));
    HolesAppend(Xs(8) + "-" + Xs(4), "-4");
    HolesAppend(Xs(8) + "-", Xs(4));
    HolesAppend(Xs(8), "-");
    HolesOfXs(8);
    HolesOfXs(4);
    HolesOfXs(3);
    HolesOfXs(12);
  }

  /** `generateUuid()` for the given random nibbles. */
  function GenerateUuid(rs: seq<Nibble>): (u: string)
    requires |rs| == 31
    ensures |u| == 36
  {
    TemplateHoles();
    FillLength(Template, rs);
    Fill(Template, rs)
  }

  /**
   * The layout of every generated UUID: 36 characters, hyphens at 8, 13, 18
   * and 23, the version digit `4` at 14, a variant digit `8`, `9`, `a` or `b`
   * at 19, and at every `x` of the template the hex digit of its own nibble,
   * from which the nibble is recovered.
   */
  lemma UuidLayout(rs: seq<Nibble>)
    requires |rs| == 31
    ensures var u := GenerateUuid(rs);
            && |u| == 36
            && u[8] == '-' && u[13] == '-' && u[18] == '-' && u[23] == '-'
            && u[14] == '4'
            && u[19] in {'8', '9', 'a', 'b'}
    ensures forall i :: 0 <= i < 36 && !IsHole(Template[i]) ==> GenerateUuid(rs)[i] == Template[i]
    ensures forall i :: 0 <= i < 36 && Template[i] == 'x' ==>
              Holes(Template[..i]) < 31 && GenerateUuid(rs)[i] == HexDigit(rs[Holes(Template[..i])])
    ensures forall i :: 0 <= i < 36 && Template[i] == 'x' ==>
              HexValue(GenerateUuid(rs)[i]) == Some(rs[Holes(Template[..i])])
  {
    TemplateHoles();
    var u := GenerateUuid(rs);
    FillLength(Template, rs);
    FillAt(Template, rs, 8);
    FillAt(Template, rs, 13);
    FillAt(Template, rs, 14);
    FillAt(Template, rs, 18);
    FillAt(Template, rs, 19);
    FillAt(Template, rs, 23);
    var v := VariantNibble(rs[Holes(Template[..19])]);
    assert 8 <= v <= 11;
    forall i | 0 <= i < 36 && !IsHole(Template[i]) ensures u[i] == Template[i] {
      FillAt(Template, rs, i);
    }
    forall i | 0 <= i < 36 && Template[i] == 'x'
      ensures Holes(Template[..i]) < 31 && u[i] == HexDigit(rs[Holes(Template[..i])])
      ensures HexValue(u[i]) == Some(rs[Holes(Template[..i])])
    {
      FillAt(Template, rs, i);
      HexRoundTrip(rs[Holes(Template[..i])]);
    }
  }

  /** `HexValue` undoes `HexDigit`. */
  lemma HexRoundTrip(v: Nibble)
    ensures HexValue(HexDigit(v)) == Some(v)
  {
  }
}
