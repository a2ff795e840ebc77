/** The image-views export: the stored JSON text of the views map is turned
    into tab-separated text by replacing delimiters in place, without
    parsing it. */
module Export {
  import opened Numbers

  const CSV_HEADER := "Image\tViews\r\n"

  /** `s.replace(/c/g, r)`: every `c` of `s` replaced by `r`. */
  function Subst(s: string, c: char, r: string): (t: string)
    ensures (forall i :: 0 <= i < |s| ==> s[i] != c) ==> t == s
  {
    if s == [] then [] else (if s[0] == c then r else [s[0]]) + Subst(s[1..], c, r)
  }

  /** The three replacements of the export, in the order they are made:
      ':' becomes a tab, ',' a line break, and braces are dropped. */
  function Delimit(s: string): string
  {
    Subst(Subst(Subst(Subst(s, ':', "\t"), ',', "\r\n"), '{', ""), '}', "")
  }

  /** The export text for the stored views text. */
  function ImagesCsv(stored: string): string
  {
    CSV_HEADER + Delimit(stored)
  }

  lemma {:induction false} SubstConcat(a: string, b: string, c: char, r: string)
    ensures Subst(a + b, c, r) == Subst(a, c, r) + Subst(b, c, r)
  {
    if a == [] {
      assert a + b == b;
    } else {
      assert (a + b)[0] == a[0];
      assert (a + b)[1..] == a[1..] + b;
      SubstConcat(a[1..], b, c, r);
    }
  }

  lemma DelimitConcat(a: string, b: string)
    ensures Delimit(a + b) == Delimit(a) + Delimit(b)
  {
    SubstConcat(a, b, ':', "\t");
    var a1, b1 := Subst(a, ':', "\t"), Subst(b, ':', "\t");
    SubstConcat(a1, b1, ',', "\r\n");
    var a2, b2 := Subst(a1, ',', "\r\n"), Subst(b1, ',', "\r\n");
    SubstConcat(a2, b2, '{', "");
    SubstConcat(Subst(a2, '{', ""), Subst(b2, '{', ""), '}', "");
  }

  /** A text none of whose characters the export replaces. */
  predicate Plain(s: string)
  {
    forall i :: 0 <= i < |s| ==> s[i] != ':' && s[i] != ',' && s[i] != '{' && s[i] != '}'
  }

  lemma DelimitPlain(s: string)
    requires Plain(s)
    ensures Delimit(s) == s
  {
  }

  /** `JSON.stringify` of a views map whose keys are the hashes of `pairs`,
      in that order; the rule of `JSON.stringify` that puts integer-like
      keys first is not modelled. */
  function JsonText(pairs: seq<(string, int)>): string
  {
    "{" + Members(pairs) + "}"
  }

  function Quoted(h: string): string
  {
    "\"" + h + "\""
  }

  function Member(p: (string, int)): string
  {
    Quoted(p.0) + ":" + DecimalText(p.1)
  }

  function Members(pairs: seq<(string, int)>): string
    decreases |pairs|
  {
    if pairs == [] then ""
    else if |pairs| == 1 then Member(pairs[0])
    else Member(pairs[0]) + "," + Members(pairs[1..])
  }

  /** The intended export rows: the quoted hash, a tab and the count, one
      line per image. */
  function Row(p: (string, int)): string
  {
    Quoted(p.0) + "\t" + DecimalText(p.1)
  }

  function Rows(pairs: seq<(string, int)>): string
    decreases |pairs|
  {
    if pairs == [] then ""
    else if |pairs| == 1 then Row(pairs[0])
    else Row(pairs[0]) + "\r\n" + Rows(pairs[1..])
  }

  lemma DecimalTextPlain(i: int)
    ensures Plain(DecimalText(i))
  {
    var digits := NatToString(if i < 0 then -i else i);
    assert AllDigits(digits);
  }

  lemma SubstSingle(x: char, c: char, r: string)
    ensures Subst([x], c, r) == if x == c then r else [x]
  {
    assert [x][1..] == [];
  }

  /** The single characters the export replaces. */
  lemma DelimitSeparators()
    ensures Delimit(":") == "\t" && Delimit(",") == "\r\n"
    ensures Delimit("{") == "" && Delimit("}") == ""
  {
    assert Delimit(":") == "\t" by {
      SubstSingle(':', ':', "\t");
      SubstSingle('\t', ',', "\r\n");
      SubstConcat("\r", "\n", '{', "");
      SubstSingle('\r', '{', "");
      SubstSingle('\n', '{', "");
      SubstConcat("\r", "\n", '}', "");
      SubstSingle('\r', '}', "");
      SubstSingle('\n', '}', "");
      SubstSingle('\t', '{', "");
      SubstSingle('\t', '}', "");
    }
    assert Delimit(",") == "\r\n" by {
      SubstSingle(',', ':', "\t");
      SubstSingle(',', ',', "\r\n");
      SubstConcat("\r", "\n", '{', "");
      SubstSingle('\r', '{', "");
      SubstSingle('\n', '{', "");
      SubstConcat("\r", "\n", '}', "");
      SubstSingle('\r', '}', "");
      SubstSingle('\n', '}', "");
    }
    assert Delimit("{") == "" by {
      SubstSingle('{', ':', "\t");
      SubstSingle('{', ',', "\r\n");
      SubstSingle('{', '{', "");
    }
    assert Delimit("}") == "" by {
      SubstSingle('}', ':', "\t");
      SubstSingle('}', ',', "\r\n");
      SubstSingle('}', '{', "");
      SubstSingle('}', '}', "");
    }
  }

  lemma MemberRow(p: (string, int))
    requires Plain(p.0)
    ensures Delimit(Member(p)) == Row(p)
  {
    DecimalTextPlain(p.1);
    assert Plain(Quoted(p.0));
    DelimitPlain(Quoted(p.0));
    DelimitPlain(DecimalText(p.1));
    DelimitSeparators();
    DelimitConcat(Quoted(p.0), ":");
    DelimitConcat(Quoted(p.0) + ":", DecimalText(p.1));
  }

  lemma {:induction false} MembersRows(pairs: seq<(string, int)>)
    requires forall k :: 0 <= k < |pairs| ==> Plain(pairs[k].0)
    ensures Delimit(Members(pairs)) == Rows(pairs)
    decreases |pairs|
  {
    if |pairs| == 1 {
      MemberRow(pairs[0]);
    } else if |pairs| > 1 {
      MemberRow(pairs[0]);
      MembersRows(pairs[1..]);
      DelimitConcat(Member(pairs[0]) + ",", Members(pairs[1..]));
      DelimitConcat(Member(pairs[0]), ",");
      DelimitSeparators();
    }
  }

  /** The braces around the members are dropped. */
  lemma BracesDropped(m: string)
    ensures Delimit("{" + m + "}") == Delimit(m)
  {
    DelimitConcat("{" + m, "}");
    DelimitConcat("{", m);
    DelimitSeparators();
  }

  /** For hashes free of the replaced characters (imgur hashes are
      alphanumeric), the in-place replacement gives exactly one line per
      image, in the order of the stored map, under the header. */
  lemma ExportOfStoredViews(pairs: seq<(string, int)>)
    requires forall k :: 0 <= k < |pairs| ==> Plain(pairs[k].0)
    ensures ImagesCsv(JsonText(pairs)) == CSV_HEADER + Rows(pairs)
  {
    BracesDropped(Members(pairs));
    MembersRows(pairs);
  }
}
