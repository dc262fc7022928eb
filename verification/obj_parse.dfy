/** The text level of the Wavefront OBJ reader: splitting a line into fields the way successive `>>`
    extractions do, std::stoi on a field fragment, and the decoding of one face token "v/vt/vn". */
module ObjParse {
  import opened Wrappers
  import opened CppInt

  /** The characters std::isspace accepts in the C locale. */
  predicate IsSpace(c: char) {
    c == ' ' || c == '\t' || c == '\n' || c == '\r' || c as int == 11 || c as int == 12
  }

  predicate NoSpace(w: string) {
    forall k :: 0 <= k < |w| ==> !IsSpace(w[k])
  }

  /** The length of the run of non-space characters that starts s. */
  function WordLength(s: string): (n: nat)
    ensures n <= |s| && NoSpace(s[..n])
    ensures n < |s| ==> IsSpace(s[n])
  {
    if s == [] || IsSpace(s[0]) then 0 else 1 + WordLength(s[1..])
  }

  /** The fields of a line: what successive `stream >> str` extractions deliver, white space skipped. */
  function Tokens(s: string): (r: seq<string>)
    ensures forall k :: 0 <= k < |r| ==> r[k] != [] && NoSpace(r[k])
    decreases |s|
  {
    if s == [] then []
    else if IsSpace(s[0]) then Tokens(s[1..])
    else
      var n := WordLength(s);
      [s[..n]] + Tokens(s[n..])
  }

  /** Words joined with single spaces, the inverse of Tokens on words without white space. */
  function JoinWords(ws: seq<string>): string {
    if ws == [] then "" else if |ws| == 1 then ws[0] else ws[0] + " " + JoinWords(ws[1..])
  }

  lemma WordLengthOfWord(w: string, rest: string)
    requires NoSpace(w) && (rest == [] || IsSpace(rest[0]))
    ensures WordLength(w + rest) == |w|
    decreases |w|
  {
    if w != [] {
      assert (w + rest)[1..] == w[1..] + rest;
      WordLengthOfWord(w[1..], rest);
    }
  }

  /** Splitting words joined by spaces gives the words back. */
  lemma {:induction false} TokensOfJoin(ws: seq<string>)
    requires forall k :: 0 <= k < |ws| ==> ws[k] != [] && NoSpace(ws[k])
    ensures Tokens(JoinWords(ws)) == ws
    decreases |ws|
  {
    if ws == [] {
    } else if |ws| == 1 {
      var w := ws[0];
      WordLengthOfWord(w, "");
      assert w + "" == w;
      assert w[|w|..] == [];
      assert Tokens(w) == [w[..|w|]] + Tokens(w[|w|..]);
    } else {
      var w, rest := ws[0], JoinWords(ws[1..]);
      var s := w + " " + rest;
      assert s == w + (" " + rest);
      WordLengthOfWord(w, " " + rest);
      assert s[..|w|] == w && s[|w|..] == " " + rest;
      assert Tokens(s) == [w] + Tokens(" " + rest);
      assert (" " + rest)[1..] == rest;
      TokensOfJoin(ws[1..]);
      assert ws == [w] + ws[1..];
    }
  }

  /** The first field of a line (what `ss >> prefix` reads), or "" for a blank line. */
  function Prefix(toks: seq<string>): string {
    if toks == [] then "" else toks[0]
  }

  /** Field k of a line, or "" when the line has fewer fields. */
  function Field(toks: seq<string>, k: nat): string {
    if k < |toks| then toks[k] else ""
  }

  /** The string a face line's i-th token read leaves in the token variable: field i + 1, or, once the
      line is exhausted, what the previous read left there (a failed `>>` keeps the string). */
  function FaceField(toks: seq<string>, i: nat): (w: string)
    ensures w != "" ==> w in toks
  {
    if i + 1 < |toks| then toks[i + 1] else if i == 0 then "" else FaceField(toks, i - 1)
  }

  // ---------------------------------------------------------------------------------------------
  // std::stoi

  predicate IsDigit(c: char) {
    '0' <= c <= '9'
  }

  predicate AllDigits(d: string) {
    forall k :: 0 <= k < |d| ==> IsDigit(d[k])
  }

  /** The length of the run of decimal digits that starts s. */
  function DigitRun(s: string): (n: nat)
    ensures n <= |s|
  {
    if s == [] || !IsDigit(s[0]) then 0 else 1 + DigitRun(s[1..])
  }

  /** The digit run is all digits and is followed by a non-digit or the end. */
  lemma DigitRunIsMaximal(s: string)
    ensures var n := DigitRun(s); (forall k :: 0 <= k < n ==> IsDigit(s[k])) && (n < |s| ==> !IsDigit(s[n]))
  {
    if s != [] && IsDigit(s[0]) {
      var t := s[1..];
      DigitRunIsMaximal(t);
      assert forall k :: 1 <= k < |s| ==> s[k] == t[k - 1];
    }
  }

  /** The value of a string of decimal digits, most significant first. */
  function DigitsValue(d: string): nat
    requires AllDigits(d)
  {
    if d == [] then 0 else 10 * DigitsValue(d[..|d| - 1]) + (d[|d| - 1] as int - '0' as int)
  }

  /** The decimal digits of n, without leading zeros. */
  function Decimal(n: nat): (d: string)
    ensures d != [] && AllDigits(d)
  {
    if n < 10 then [('0' as int + n) as char] else Decimal(n / 10) + [('0' as int + n % 10) as char]
  }

  /** std::stoi on text without leading white space (every caller passes part of a face token): an
      optional sign, then the longest run of digits; None where stoi throws, that is when there is no
      digit (std::invalid_argument) or the value is outside int (std::out_of_range). */
  function Stoi(s: string): (r: Option<int>)
    ensures r.Some? ==> InInt(r.value)
    ensures s == [] || (!IsDigit(s[0]) && s[0] != '-' && s[0] != '+') ==> r.None?
  {
    var signed := |s| > 0 && (s[0] == '-' || s[0] == '+');
    var u := if signed then s[1..] else s;
    var n := DigitRun(u);
    DigitRunIsMaximal(u);
    assert AllDigits(u[..n]);
    if n == 0 then None
    else
      var m: int := DigitsValue(u[..n]);
      var v := if s[0] == '-' then -m else m;
      if InInt(v) then Some(v) else None
  }

  lemma {:induction false} DecimalValue(n: nat)
    ensures DigitsValue(Decimal(n)) == n
  {
    if n >= 10 {
      var d := Decimal(n);
      assert d[..|d| - 1] == Decimal(n / 10);
      DecimalValue(n / 10);
    }
  }

  lemma DigitRunOf(d: string, rest: string)
    requires AllDigits(d) && (rest == [] || !IsDigit(rest[0]))
    ensures DigitRun(d + rest) == |d|
    decreases |d|
  {
    if d != [] {
      assert (d + rest)[0] == d[0];
      assert (d + rest)[1..] == d[1..] + rest;
      DigitRunOf(d[1..], rest);
    } else {
      assert d + rest == rest;
    }
  }

  /** stoi reads back the decimal digits of any non-negative int. */
  lemma StoiDecimal(n: nat)
    requires n <= INT_MAX
    ensures Stoi(Decimal(n)) == Some(n)
  {
    var d := Decimal(n);
    DigitRunOf(d, "");
    assert d + "" == d;
    assert d[..|d|] == d;
    DecimalValue(n);
  }

  /** stoi stops at the first character after the digits that is not a digit. */
  lemma StoiStops(d: string, rest: string)
    requires AllDigits(d) && (rest == [] || (!IsDigit(rest[0]) && rest[0] != '-' && rest[0] != '+'))
    ensures Stoi(d + rest) == Stoi(d)
  {
    DigitRunOf(d, rest);
    DigitRunOf(d, "");
    assert d + "" == d;
    if d != [] {
      assert (d + rest)[..|d|] == d == d[..|d|];
    }
  }

  // ---------------------------------------------------------------------------------------------
  // Face tokens

  /** std::string::find(c, from): the first position at or after `from` holding c, None for npos. */
  function Find(s: string, c: char, from: nat): (r: Option<nat>)
    requires from <= |s|
    ensures r.Some? ==> from <= r.value < |s| && s[r.value] == c
    decreases |s| - from
  {
    if from == |s| then None else if s[from] == c then Some(from) else Find(s, c, from + 1)
  }

  /** Find returns the first occurrence, and npos only when there is none. */
  lemma FindIsFirst(s: string, c: char, from: nat)
    requires from <= |s|
    ensures var r := Find(s, c, from);
            && (r.Some? ==> forall k :: from <= k < r.value ==> s[k] != c)
            && (r.None? ==> forall k :: from <= k < |s| ==> s[k] != c)
    decreases |s| - from
  {
    if from < |s| && s[from] != c {
      FindIsFirst(s, c, from + 1);
    }
  }

  /** The three indices of one face corner as the loader computes them: each stoi result minus one. */
  datatype Corner = Corner(vertex: int, tex: int, normal: int)

  /** The outcome of decoding a face token: no slash (nothing is stored), a stoi call that throws, or a
      decoded corner. */
  datatype TokenParse = NoSlash | Throws | Decoded(corner: Corner)

  /** One face token as the loader decodes it. The vertex text runs up to the first slash. The texture
      text is a substr whose length argument is the position of the second slash, which reaches past
      that slash (stoi stops there), and the rest of the token when there is no second slash. The normal
      text starts after the second slash, or, when there is none, at npos + 1 == 0: the whole token. */
  function ParseFaceToken(tok: string): (r: TokenParse)
  {
    match Find(tok, '/', 0)
    case None => NoSlash
    case Some(p) => DecodeAt(tok, p, Find(tok, '/', p + 1))
  }

  /** Nothing is decoded exactly when the token holds no slash. */
  lemma NoSlashExactly(tok: string)
    ensures ParseFaceToken(tok) == NoSlash <==> '/' !in tok
  {
    FindIsFirst(tok, '/', 0);
  }

  /** The decoding of a token whose first slash is at p and whose second slash, if any, is `second`. */
  function DecodeAt(tok: string, p: nat, second: Option<nat>): TokenParse
    requires p < |tok| && (second.Some? ==> p < second.value < |tok|)
  {
    var tText := if second.Some? then TexText(tok, p, second.value) else tok[p + 1..];
    var nText := if second.Some? then tok[second.value + 1..] else tok;
    DecodeIndices(Stoi(tok[..p]), Stoi(tText), Stoi(nText))
  }

  /** The texture text: substr(p + 1, q), q characters from p + 1, cut at the end of the token. */
  function TexText(tok: string, p: nat, q: nat): string
    requires p < |tok|
  {
    tok[p + 1 .. Min(p + 1 + q, |tok|)]
  }

  /** The corner from the three stoi results, or Throws when any of them threw. */
  function DecodeIndices(v: Option<int>, t: Option<int>, n: Option<int>): (r: TokenParse)
    ensures r != NoSlash
  {
    if v.Some? && t.Some? && n.Some? then Decoded(Corner(v.value - 1, t.value - 1, n.value - 1)) else Throws
  }

  function Min(a: int, b: int): int {
    if a <= b then a else b
  }

  /** find('/') on digits followed by a slash stops at that slash. */
  lemma FindFirstSlash(d: string, post: string)
    requires AllDigits(d)
    ensures Find(d + "/" + post, '/', 0) == Some(|d|)
  {
    var s := d + "/" + post;
    assert forall k :: 0 <= k < |d| ==> s[k] == d[k];
    assert s[|d|] == '/';
    FindIsFirst(s, '/', 0);
  }

  /** find('/') from the start of a digit run followed by a slash stops at that slash. */
  lemma FindNextSlash(pre: string, d: string, post: string)
    requires AllDigits(d)
    ensures Find(pre + d + "/" + post, '/', |pre|) == Some(|pre| + |d|)
  {
    var s := pre + d + "/" + post;
    assert forall k :: |pre| <= k < |pre| + |d| ==> s[k] == d[k - |pre|];
    assert s[|pre| + |d|] == '/';
    FindIsFirst(s, '/', |pre|);
  }

  /** find('/') from the start of a digit run that ends the string finds nothing. */
  lemma FindNoSlash(pre: string, d: string)
    requires AllDigits(d)
    ensures Find(pre + d, '/', |pre|) == None
  {
    var s := pre + d;
    assert forall k :: |pre| <= k < |s| ==> s[k] == d[k - |pre|];
    FindIsFirst(s, '/', |pre|);
  }

  lemma DecodeAtTwoSlashes(tok: string, p: nat, q: nat)
    requires p < q < |tok|
    ensures DecodeAt(tok, p, Some(q))
         == DecodeIndices(Stoi(tok[..p]), Stoi(TexText(tok, p, q)), Stoi(tok[q + 1..]))
  {
  }

  lemma DecodeAtOneSlash(tok: string, p: nat)
    requires p < |tok|
    ensures DecodeAt(tok, p, None) == DecodeIndices(Stoi(tok[..p]), Stoi(tok[p + 1..]), Stoi(tok))
  {
  }

  /** A token "a/b/c" of digit strings decodes to stoi(a) - 1, stoi(b) - 1, stoi(c) - 1, and throws when
      any of the three is empty. */
  lemma ParseFullToken(da: string, db: string, dc: string)
    requires AllDigits(da) && AllDigits(db) && AllDigits(dc)
    ensures ParseFaceToken(da + "/" + db + "/" + dc) == DecodeIndices(Stoi(da), Stoi(db), Stoi(dc))
  {
    FullTokenSlashes(da, db, dc);
    FullTokenTexValue(da, db, dc);
    SameTexValue(da + "/" + db + "/" + dc, da, TexText(da + "/" + db + "/" + dc, |da|, |da| + 1 + |db|), db, dc);
  }

  lemma SameTexValue(tok: string, x: string, y: string, y': string, z: string)
    requires ParseFaceToken(tok) == DecodeIndices(Stoi(x), Stoi(y), Stoi(z)) && Stoi(y) == Stoi(y')
    ensures ParseFaceToken(tok) == DecodeIndices(Stoi(x), Stoi(y'), Stoi(z))
  {
  }

  /** The texture text of "a/b/c" is b followed by a slash and more, so stoi reads b from it. */
  lemma FullTokenTexValue(da: string, db: string, dc: string)
    requires AllDigits(db)
    ensures Stoi(TexText(da + "/" + db + "/" + dc, |da|, |da| + 1 + |db|)) == Stoi(db)
  {
    var t := TexText(da + "/" + db + "/" + dc, |da|, |da| + 1 + |db|);
    assert |t| > |db| && t[..|db|] == db && t[|db|] == '/';
    StoiBeforeSlash(t, db);
  }

  /** stoi of digits followed by a slash reads only the digits. */
  lemma StoiBeforeSlash(t: string, d: string)
    requires AllDigits(d) && |t| > |d| && t[..|d|] == d && t[|d|] == '/'
    ensures Stoi(t) == Stoi(d)
  {
    assert t == d + t[|d|..];
    StoiStops(d, t[|d|..]);
  }

  /** The slashes of "a/b/c" sit after a and after b; the texture text is b followed by more text. */
  lemma FullTokenSlashes(da: string, db: string, dc: string)
    requires AllDigits(da) && AllDigits(db)
    ensures ParseFaceToken(da + "/" + db + "/" + dc)
         == DecodeIndices(Stoi(da), Stoi(TexText(da + "/" + db + "/" + dc, |da|, |da| + 1 + |db|)), Stoi(dc))
  {
    FullTokenParts(da, db, dc);
    FullTokenFinds(da, db, dc);
    TwoSlashTokenParts(da + "/" + db + "/" + dc, |da|, |da| + 1 + |db|, da, dc);
  }

  lemma FullTokenFinds(da: string, db: string, dc: string)
    requires AllDigits(da) && AllDigits(db)
    ensures Find(da + "/" + db + "/" + dc, '/', 0) == Some(|da|)
    ensures Find(da + "/" + db + "/" + dc, '/', |da| + 1) == Some(|da| + 1 + |db|)
  {
    FullTokenParts(da, db, dc);
    FindFirstSlash(da, db + "/" + dc);
    FindNextSlash(da + "/", db, dc);
  }

  /** The decoding of a token with slashes at p and q whose vertex and normal texts are known. */
  lemma TwoSlashTokenParts(tok: string, p: nat, q: nat, vText: string, nText: string)
    requires Find(tok, '/', 0) == Some(p) && Find(tok, '/', p + 1) == Some(q)
    requires tok[..p] == vText && tok[q + 1..] == nText
    ensures ParseFaceToken(tok) == DecodeIndices(Stoi(vText), Stoi(TexText(tok, p, q)), Stoi(nText))
  {
    TwoSlashToken(tok, p, q);
  }

  lemma FullTokenParts(da: string, db: string, dc: string)
    ensures da + "/" + db + "/" + dc == da + "/" + (db + "/" + dc)
    ensures (da + "/" + db + "/" + dc)[..|da|] == da
    ensures (da + "/" + db + "/" + dc)[|da| + 1 + |db| + 1..] == dc
  {
  }

  /** The decoding of a token with two slashes, at p and q. */
  lemma TwoSlashToken(tok: string, p: nat, q: nat)
    requires Find(tok, '/', 0) == Some(p) && Find(tok, '/', p + 1) == Some(q)
    ensures ParseFaceToken(tok)
         == DecodeIndices(Stoi(tok[..p]), Stoi(TexText(tok, p, q)), Stoi(tok[q + 1..]))
  {
    assert ParseFaceToken(tok) == DecodeAt(tok, p, Some(q));
    DecodeAtTwoSlashes(tok, p, q);
  }

  /** A token "a/b" with one slash reads its normal index from the whole token (npos + 1 wraps to 0),
      so the normal index repeats the vertex index. */
  lemma ParseTwoPartToken(da: string, db: string)
    requires AllDigits(da) && AllDigits(db)
    ensures ParseFaceToken(da + "/" + db) == DecodeIndices(Stoi(da), Stoi(db), Stoi(da))
  {
    TwoPartFinds(da, db);
    TwoPartParts(da, db);
    OneSlashTokenParts(da + "/" + db, |da|, da, db);
    StoiStops(da, "/" + db);
    SameNormalValue(da + "/" + db, da, db, da + "/" + db, da);
  }

  lemma TwoPartParts(da: string, db: string)
    ensures (da + "/" + db)[..|da|] == da && (da + "/" + db)[|da| + 1..] == db
    ensures da + "/" + db == da + ("/" + db)
  {
  }

  lemma TwoPartFinds(da: string, db: string)
    requires AllDigits(da) && AllDigits(db)
    ensures Find(da + "/" + db, '/', 0) == Some(|da|) && Find(da + "/" + db, '/', |da| + 1) == None
  {
    assert da + "/" + db == da + "/" + db + "";
    FindFirstSlash(da, db);
    FindNoSlash(da + "/", db);
  }

  /** The decoding of a token with a single slash, at p, whose vertex and texture texts are known. */
  lemma OneSlashTokenParts(tok: string, p: nat, vText: string, tText: string)
    requires Find(tok, '/', 0) == Some(p) && Find(tok, '/', p + 1) == None
    requires tok[..p] == vText && tok[p + 1..] == tText
    ensures ParseFaceToken(tok) == DecodeIndices(Stoi(vText), Stoi(tText), Stoi(tok))
  {
    assert ParseFaceToken(tok) == DecodeAt(tok, p, None);
    DecodeAtOneSlash(tok, p);
  }

  lemma SameNormalValue(tok: string, x: string, y: string, z: string, z': string)
    requires ParseFaceToken(tok) == DecodeIndices(Stoi(x), Stoi(y), Stoi(z)) && Stoi(z) == Stoi(z')
    ensures ParseFaceToken(tok) == DecodeIndices(Stoi(x), Stoi(y), Stoi(z'))
  {
  }

  /** The decimal token "a/b/c" decodes to the zero-based corner (a - 1, b - 1, c - 1). */
  lemma ParseDecimalToken(a: nat, b: nat, c: nat)
    requires a <= INT_MAX && b <= INT_MAX && c <= INT_MAX
    ensures ParseFaceToken(Decimal(a) + "/" + Decimal(b) + "/" + Decimal(c)) == Decoded(Corner(a - 1, b - 1, c - 1))
  {
    ParseFullToken(Decimal(a), Decimal(b), Decimal(c));
    StoiDecimal(a);
    StoiDecimal(b);
    StoiDecimal(c);
    DecodedFrom(Decimal(a) + "/" + Decimal(b) + "/" + Decimal(c), Decimal(a), Decimal(b), Decimal(c), a, b, c);
  }

  lemma DecodedFrom(tok: string, x: string, y: string, z: string, a: int, b: int, c: int)
    requires ParseFaceToken(tok) == DecodeIndices(Stoi(x), Stoi(y), Stoi(z))
    requires Stoi(x) == Some(a) && Stoi(y) == Some(b) && Stoi(z) == Some(c)
    ensures ParseFaceToken(tok) == Decoded(Corner(a - 1, b - 1, c - 1))
  {
  }

  /** A token "a//c" without a texture index throws: stoi finds no digit in the texture text. */
  lemma ParseTokenWithoutTexture(da: string, dc: string)
    requires AllDigits(da) && AllDigits(dc)
    ensures ParseFaceToken(da + "//" + dc) == Throws
  {
    assert da + "//" + dc == da + "/" + "" + "/" + dc;
    ParseFullToken(da, "", dc);
  }
}
