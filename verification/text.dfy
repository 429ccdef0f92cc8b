/** String handling the ledger relies on: the case-insensitive name match used for
    auto-fill and auto-creation, `String.prototype.trim`, and the file-name sanitiser
    applied to a customer's name when an invoice is saved as a PDF. */
module Text {

  predicate IsUpper(c: char)
  {
    'A' <= c <= 'Z'
  }

  function LowerChar(c: char): char
  {
    if IsUpper(c) then (c as int - 'A' as int + 'a' as int) as char else c
  }

  /** `toLowerCase`, restricted to the ASCII letters: each capital becomes its small letter,
      32 code points further on, and every other character is kept. */
  function Lower(s: string): (r: string)
    ensures |r| == |s|
    ensures forall k :: 0 <= k < |r| ==> !IsUpper(r[k])
    ensures forall k :: 0 <= k < |s| && !IsUpper(s[k]) ==> r[k] == s[k]
    ensures forall k :: 0 <= k < |s| && IsUpper(s[k]) ==> r[k] as int == s[k] as int + 32
  {
    seq(|s|, k requires 0 <= k < |s| => LowerChar(s[k]))
  }

  /** Two names are the same when they agree after lowering both. */
  predicate SameName(a: string, b: string)
  {
    Lower(a) == Lower(b)
  }

  /** Two characters that differ at most in ASCII case: equal, or a capital and its small letter. */
  predicate SameLetter(x: char, y: char)
  {
    || x == y
    || (IsUpper(x) && y as int == x as int + 32)
    || (IsUpper(y) && x as int == y as int + 32)
  }

  /** Lowering makes two characters equal exactly when they differ at most in ASCII case. */
  lemma LowerCharMatch(x: char, y: char)
    ensures LowerChar(x) == LowerChar(y) <==> SameLetter(x, y)
  {
  }

  /** Names match exactly when they have the same length and agree position by position up to
      ASCII case; no other character is folded. */
  lemma SameNameByLetters(a: string, b: string)
    ensures SameName(a, b) <==> |a| == |b| && forall k :: 0 <= k < |a| ==> SameLetter(a[k], b[k])
  {
    if |a| == |b| {
      forall k | 0 <= k < |a|
        ensures Lower(a)[k] == Lower(b)[k] <==> SameLetter(a[k], b[k])
      {
        LowerCharMatch(a[k], b[k]);
      }
      if forall k :: 0 <= k < |a| ==> SameLetter(a[k], b[k]) {
        assert Lower(a) == Lower(b);
      }
    }
  }

  /** The characters `String.prototype.trim` removes: ECMAScript WhiteSpace and LineTerminator. */
  predicate IsSpace(c: char)
  {
    || c == '\t' || c == '\n' || c == '\U{000B}' || c == '\U{000C}' || c == '\r' || c == ' '
    || c == '\U{00A0}' || c == '\U{1680}' || ('\U{2000}' <= c <= '\U{200A}')
    || c == '\U{2028}' || c == '\U{2029}' || c == '\U{202F}' || c == '\U{205F}'
    || c == '\U{3000}' || c == '\U{FEFF}'
  }

  /** How many white-space characters the text starts with. */
  function LeadingSpace(s: string): (n: nat)
    ensures n <= |s|
    ensures forall k :: 0 <= k < n ==> IsSpace(s[k])
    ensures n < |s| ==> !IsSpace(s[n])
  {
    if |s| > 0 && IsSpace(s[0]) then 1 + LeadingSpace(s[1..]) else 0
  }

  /** How many white-space characters the text ends with. */
  function TrailingSpace(s: string): (n: nat)
    ensures n <= |s|
    ensures forall k :: |s| - n <= k < |s| ==> IsSpace(s[k])
    ensures n < |s| ==> !IsSpace(s[|s| - n - 1])
  {
    if |s| > 0 && IsSpace(s[|s| - 1]) then 1 + TrailingSpace(s[..|s| - 1]) else 0
  }

  /** Drops leading white space: the result is a suffix and everything cut off is white space. */
  function TrimStart(s: string): (r: string)
    ensures |r| <= |s| && r == s[|s| - |r|..]
    ensures forall k :: 0 <= k < |s| - |r| ==> IsSpace(s[k])
    ensures |r| > 0 ==> !IsSpace(r[0])
  {
    s[LeadingSpace(s)..]
  }

  /** Drops trailing white space: the result is a prefix and everything cut off is white space. */
  function TrimEnd(s: string): (r: string)
    ensures |r| <= |s| && r == s[..|r|]
    ensures forall k :: |r| <= k < |s| ==> IsSpace(s[k])
    ensures |r| > 0 ==> !IsSpace(r[|r| - 1])
  {
    s[..|s| - TrailingSpace(s)]
  }

  /** `String.prototype.trim`: the text between the leading and the trailing white space. It is
      empty exactly when the input is all white space, and otherwise neither end is white space. */
  function Trim(s: string): (r: string)
    ensures |r| <= |s|
    ensures |r| == 0 <==> forall k :: 0 <= k < |s| ==> IsSpace(s[k])
    ensures |r| > 0 ==> !IsSpace(r[0]) && !IsSpace(r[|r| - 1])
  {
    var front := TrimStart(s);
    var r := TrimEnd(front);
    assert |r| == 0 ==> forall k :: 0 <= k < |s| ==> IsSpace(s[k]) by {
      if |r| == 0 {
        assert |front| == 0;
      }
    }
    r
  }

  /** The trimmed text is the slice of the input that starts where the leading white space ends,
      with only white space before and after it. */
  lemma TrimIsInfix(s: string)
    ensures var i, t := |s| - |TrimStart(s)|, Trim(s);
      && i + |t| <= |s|
      && (forall k :: 0 <= k < |t| ==> t[k] == s[i + k])
      && (forall k :: 0 <= k < i ==> IsSpace(s[k]))
      && (forall k :: i + |t| <= k < |s| ==> IsSpace(s[k]))
  {
    var front := TrimStart(s);
    var t := TrimEnd(front);
    var i := |s| - |front|;
    assert Trim(s) == t;
    forall k | 0 <= k < |t|
      ensures t[k] == s[i + k]
    {
      assert t[k] == front[k];
    }
    forall k | i + |t| <= k < |s|
      ensures IsSpace(s[k])
    {
      assert s[k] == front[k - i];
    }
  }

  /** Text with no white space at either end is kept as typed. */
  lemma TrimKeeps(s: string)
    requires |s| > 0 && !IsSpace(s[0]) && !IsSpace(s[|s| - 1])
    ensures Trim(s) == s
  {
    assert LeadingSpace(s) == 0;
    assert TrailingSpace(s) == 0;
  }

  /** Trimming twice is trimming once. */
  lemma TrimIdempotent(s: string)
    ensures Trim(Trim(s)) == Trim(s)
  {
    var t := Trim(s);
    if |t| > 0 {
      TrimKeeps(t);
    } else {
      assert LeadingSpace(t) == 0;
    }
  }

  /** The characters a file name may not hold: slash, backslash, `?`, `%`, `*`, `:`, `|`, `"`, `<` and `>`. */
  predicate IsReserved(c: char)
  {
    c == '/' || c == '\\' || c == '?' || c == '%' || c == '*' || c == ':' || c == '|' || c == '"' || c == '<' || c == '>'
  }

  /** Every reserved character replaced by a hyphen, everything else kept. */
  function ReplaceReserved(s: string): (r: string)
    ensures |r| == |s|
    ensures forall k :: 0 <= k < |r| ==> !IsReserved(r[k])
    ensures forall k :: 0 <= k < |s| && !IsReserved(s[k]) ==> r[k] == s[k]
    ensures forall k :: 0 <= k < |s| && IsReserved(s[k]) ==> r[k] == '-'
  {
    if |s| == 0 then []
    else [if IsReserved(s[0]) then '-' else s[0]] + ReplaceReserved(s[1..])
  }

  /** The customer part of a PDF file name, "Customer" when the name is empty: never empty and free
      of reserved characters; each reserved character of the name becomes `-` and every other
      character is kept in place. */
  function SafeFileName(customerName: string): (r: string)
    ensures |r| > 0
    ensures forall k :: 0 <= k < |r| ==> !IsReserved(r[k])
    ensures customerName == "" ==> r == "Customer"
    ensures customerName != "" ==> |r| == |customerName|
    ensures (forall k :: 0 <= k < |customerName| ==> !IsReserved(customerName[k])) && customerName != "" ==> r == customerName
    ensures customerName != "" ==>
      forall k :: 0 <= k < |r| ==> r[k] == (if IsReserved(customerName[k]) then '-' else customerName[k])
  {
    var base := if customerName == "" then "Customer" else customerName;
    var r := ReplaceReserved(base);
    assert customerName == "" ==> r == "Customer" by {
      if customerName == "" {
        assert forall k :: 0 <= k < |base| ==> !IsReserved(base[k]);
      }
    }
    r
  }

  /** Sanitising an already safe name changes nothing. */
  lemma SafeFileNameIdempotent(customerName: string)
    ensures SafeFileName(SafeFileName(customerName)) == SafeFileName(customerName)
  {
  }

  /** The PDF file name: the invoice id, an underscore, the safe name, and the extension. */
  function PdfFileName(invoiceId: string, customerName: string): (r: string)
    ensures |r| == |invoiceId| + 1 + |SafeFileName(customerName)| + 4
    ensures r[..|invoiceId|] == invoiceId && r[|invoiceId|] == '_'
    ensures r[|r| - 4..] == ".pdf"
    ensures r[|invoiceId| + 1..|r| - 4] == SafeFileName(customerName)
    ensures forall k :: |invoiceId| < k < |r| - 4 ==> !IsReserved(r[k])
  {
    invoiceId + "_" + SafeFileName(customerName) + ".pdf"
  }
}
