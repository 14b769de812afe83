/** The mailbox list: newest mail first, one page for each call, and an opaque token
    that says where the next page starts. */
module MailPages {
  import opened Bytes
  import opened Common

  const DEFAULT_PAGE_SIZE := 20
  const MAX_PAGE_SIZE := 50
  const MIN_INT64 := -0x8000_0000_0000_0000
  const MAX_INT64 := 0x7FFF_FFFF_FFFF_FFFF

  datatype View = View(created: int, id: string)

  // ------------------------------------------------------------- order of strings

  predicate Smaller(a: string, b: string)
    decreases |a|
  {
    if b == "" then false
    else if a == "" then true
    else if a[0] != b[0] then a[0] < b[0]
    else Smaller(a[1..], b[1..])
  }

  lemma {:induction false} NotSmaller(a: string)
    ensures !Smaller(a, a)
  {
    if a != [] { NotSmaller(a[1..]); }
  }

  lemma {:induction false} SmallerOrEqual(a: string, b: string)
    ensures Smaller(a, b) || a == b || Smaller(b, a)
    ensures !(Smaller(a, b) && Smaller(b, a))
    decreases |a|
  {
    if a != [] && b != [] && a[0] == b[0] {
      SmallerOrEqual(a[1..], b[1..]);
      assert a == [a[0]] + a[1..] && b == [b[0]] + b[1..];
    }
  }

  lemma {:induction false} SmallerTwice(a: string, b: string, c: string)
    requires Smaller(a, b) && Smaller(b, c)
    ensures Smaller(a, c)
    decreases |a|
  {
    if a != [] && a[0] == b[0] && b[0] == c[0] { SmallerTwice(a[1..], b[1..], c[1..]); }
  }

  lemma FirstOf(a: string, b: string, k: nat)
    requires 0 < k <= |a| && k < |b| && a[..k] == b[..k]
    ensures a[0] == b[0]
  {
    assert a[..k][0] == b[..k][0];
  }

  /** A smaller string is a proper beginning of the other, or has the smaller character
      at the first place where they differ. */
  lemma {:induction false} SmallerMeans(a: string, b: string)
    ensures Smaller(a, b) <==>
      exists k :: 0 <= k <= |a| && k < |b| && a[..k] == b[..k] && (k == |a| || a[k] < b[k])
    decreases |a|
  {
    if b == "" {
    } else if a == "" {
      assert a[..0] == b[..0];
    } else if a[0] != b[0] {
      if a[0] < b[0] { assert a[..0] == b[..0]; }
      if k :| 0 < k <= |a| && k < |b| && a[..k] == b[..k] { assert false by { FirstOf(a, b, k); } }
    } else {
      SmallerMeans(a[1..], b[1..]);
      if k :| 0 <= k <= |a[1..]| && k < |b[1..]| && a[1..][..k] == b[1..][..k] && (k == |a[1..]| || a[1..][k] < b[1..][k]) {
        assert a[..k + 1] == [a[0]] + a[1..][..k] && b[..k + 1] == [b[0]] + b[1..][..k];
      }
      if k :| 0 <= k <= |a| && k < |b| && a[..k] == b[..k] && (k == |a| || a[k] < b[k]) {
        assert a[1..][..k - 1] == a[..k][1..] && b[1..][..k - 1] == b[..k][1..];
      }
    }
  }

  /** mailLessDesc: newer first, and among mails of one moment the larger ID first. */
  predicate Ahead(a: View, b: View) {
    if a.created != b.created then a.created > b.created else Smaller(b.id, a.id)
  }

  lemma AheadOne(a: View, b: View)
    ensures !(Ahead(a, b) && Ahead(b, a)) && !Ahead(a, a)
    ensures a != b ==> Ahead(a, b) || Ahead(b, a)
  {
    SmallerOrEqual(a.id, b.id);
    NotSmaller(a.id);
  }

  /** What sortMailViews makes of mails with distinct keys. */
  predicate Descending(views: seq<View>) {
    forall i, j :: 0 <= i < j < |views| ==> Ahead(views[i], views[j])
  }

  /** What comes first, character by character. */
  lemma AheadMeans(a: View, b: View)
    ensures Ahead(a, b) <==>
      || a.created > b.created
      || (&& a.created == b.created
          && exists k :: 0 <= k <= |b.id| && k < |a.id| && b.id[..k] == a.id[..k] && (k == |b.id| || b.id[k] < a.id[k]))
  {
    SmallerMeans(b.id, a.id);
  }

  lemma SameFirst(a: seq<View>, b: seq<View>)
    requires Descending(a) && Descending(b) && a != [] && b != [] && a[0] in b && b[0] in a
    ensures a[0] == b[0]
  {
    var i :| 0 <= i < |b| && b[i] == a[0];
    var j :| 0 <= j < |a| && a[j] == b[0];
    AheadOne(a[0], b[0]);
  }

  lemma RestOf(a: seq<View>)
    requires a != []
    ensures multiset(a[1..]) == multiset(a) - multiset{a[0]}
  {
    assert a == [a[0]] + a[1..];
  }

  /** There is only one such order. */
  lemma {:induction false} SortedOnce(a: seq<View>, b: seq<View>)
    requires Descending(a) && Descending(b) && multiset(a) == multiset(b)
    ensures a == b
  {
    hide Ahead;
    assert |a| == |multiset(a)| == |b|;
    if a != [] {
      assert a[0] in multiset(b) && b[0] in multiset(a);
      SameFirst(a, b);
      RestOf(a);
      RestOf(b);
      SortedOnce(a[1..], b[1..]);
      assert a == [a[0]] + a[1..] && b == [b[0]] + b[1..];
    }
  }

  // ------------------------------------------------------------- tokens

  function Digit(d: nat): char
    requires d < 10
  {
    '0' + d as char
  }

  predicate IsDigit(c: char) { '0' <= c <= '9' }

  function FormatNat(n: nat): (s: string)
    ensures s != [] && forall i :: 0 <= i < |s| ==> IsDigit(s[i])
  {
    if n < 10 then [Digit(n)] else FormatNat(n / 10) + [Digit(n % 10)]
  }

  function FormatInt(n: int): string { if n < 0 then "-" + FormatNat(-n) else FormatNat(n) }

  function ParseNat(s: string): (r: Option<nat>) {
    if s == [] || !IsDigit(s[|s| - 1]) then None
    else if |s| == 1 then Some((s[0] - '0') as nat)
    else
      var front := ParseNat(s[..|s| - 1]);
      if front.None? then None else Some(front.value * 10 + (s[|s| - 1] - '0') as nat)
  }

  /** The values of the beginnings of a row of decimal digits. */
  predicate Reads(s: string, vs: seq<nat>) {
    && |vs| == |s| + 1 && vs[0] == 0
    && forall i :: 0 <= i < |s| ==> '0' <= s[i] <= '9' && vs[i + 1] == 10 * vs[i] + (s[i] as int - '0' as int)
  }

  lemma ReadsMore(front: string, c: char, vs: seq<nat>)
    requires Reads(front, vs) && IsDigit(c)
    ensures Reads(front + [c], vs + [10 * vs[|front|] + (c as int - '0' as int)])
  {
    var s, ws := front + [c], vs + [10 * vs[|front|] + (c as int - '0' as int)];
    forall i | 0 <= i < |s| ensures '0' <= s[i] <= '9' && ws[i + 1] == 10 * ws[i] + (s[i] as int - '0' as int) {
      if i < |front| { assert s[i] == front[i]; }
    }
  }

  lemma ReadsLess(s: string, vs: seq<nat>)
    requires s != "" && Reads(s, vs)
    ensures Reads(s[..|s| - 1], vs[..|s|]) && IsDigit(s[|s| - 1])
    ensures vs[|s|] == 10 * vs[|s| - 1] + (s[|s| - 1] as int - '0' as int)
  {
  }

  lemma {:induction false} ParsedReads(s: string) returns (vs: seq<nat>)
    requires ParseNat(s).Some?
    ensures Reads(s, vs) && vs[|s|] == ParseNat(s).value
  {
    hide Reads;
    var front, c := s[..|s| - 1], s[|s| - 1];
    assert s == front + [c];
    if |s| == 1 {
      ReadsNothing();
      vs := [0];
    } else {
      vs := ParsedReads(front);
      assert |vs| == |s| by { ReadsLength(front, vs); }
    }
    ReadsLength(front, vs);
    ReadsMore(front, c, vs);
    vs := vs + [10 * vs[|front|] + (c as int - '0' as int)];
  }

  lemma ReadsNothing()
    ensures Reads("", [0])
  {
  }

  lemma ReadsLength(s: string, vs: seq<nat>)
    requires Reads(s, vs)
    ensures |vs| == |s| + 1 && vs[0] == 0
  {
  }

  lemma {:induction false} ReadsParsed(s: string, vs: seq<nat>)
    requires s != "" && Reads(s, vs)
    ensures |vs| == |s| + 1 && ParseNat(s) == Some(vs[|s|])
  {
    hide Reads;
    ReadsLength(s, vs);
    ReadsLess(s, vs);
    if |s| > 1 { ReadsParsed(s[..|s| - 1], vs[..|s|]); }
  }

  /** The value of a row of digits is what is read, and anything else is refused. */
  lemma ParsedIff(s: string, n: nat)
    ensures ParseNat(s) == Some(n) <==> s != "" && exists vs :: Reads(s, vs) && vs[|s|] == n
  {
    hide ParseNat;
    if ParseNat(s) == Some(n) {
      var vs := ParsedReads(s);
      NothingIsRefused();
    }
    if vs :| s != "" && Reads(s, vs) && vs[|s|] == n { ReadsParsed(s, vs); }
  }

  lemma NothingIsRefused()
    ensures ParseNat("").None?
  {
  }

  /** The text of a number: its digits, the first one a zero only for zero. */
  lemma {:induction false} FormattedReads(n: nat)
    ensures exists vs :: Reads(FormatNat(n), vs) && vs[|FormatNat(n)|] == n
    ensures FormatNat(n)[0] == '0' ==> n == 0 && |FormatNat(n)| == 1
  {
    ParseFormattedNat(n);
    ParsedIff(FormatNat(n), n);
    if n >= 10 { FormattedReads(n / 10); }
  }

  /** strconv.ParseInt in base 10 with 64 bits. */
  function ParseInt(s: string): Option<int> {
    var signed := s != [] && (s[0] == '-' || s[0] == '+');
    var digits := ParseNat(if signed then s[1..] else s);
    if digits.None? then None
    else
      var magnitude: int := digits.value;
      var n := if signed && s[0] == '-' then -magnitude else magnitude;
      if MIN_INT64 <= n <= MAX_INT64 then Some(n) else None
  }

  lemma {:induction false} ParseFormattedNat(n: nat)
    ensures ParseNat(FormatNat(n)) == Some(n)
  {
    if n >= 10 {
      ParseFormattedNat(n / 10);
      var s := FormatNat(n);
      assert s[..|s| - 1] == FormatNat(n / 10);
    }
  }

  lemma ParseFormatted(n: int)
    requires MIN_INT64 <= n <= MAX_INT64
    ensures ParseInt(FormatInt(n)) == Some(n)
  {
    ParseFormattedNat(if n < 0 then -n else n);
    if n < 0 { assert FormatInt(n)[1..] == FormatNat(-n); }
    else { assert IsDigit(FormatNat(n)[0]); }
  }

  /** unicode.IsSpace. */
  predicate IsSpace(c: char) {
    || '\t' <= c <= '\r' || c == ' ' || c == '\U{0085}' || c == '\U{00A0}' || c == '\U{1680}'
    || '\U{2000}' <= c <= '\U{200A}' || c == '\U{2028}' || c == '\U{2029}' || c == '\U{202F}'
    || c == '\U{205F}' || c == '\U{3000}'
  }

  function TrimLeft(s: string): string { if s != [] && IsSpace(s[0]) then TrimLeft(s[1..]) else s }

  function TrimRight(s: string): string {
    if s != [] && IsSpace(s[|s| - 1]) then TrimRight(s[..|s| - 1]) else s
  }

  function TrimSpace(s: string): string { TrimRight(TrimLeft(s)) }

  /** The index of the first bar, or the length. */
  function Bar(s: string): (k: nat)
    ensures k <= |s| && (k < |s| ==> s[k] == '|') && forall i :: 0 <= i < k ==> s[i] != '|'
  {
    if s == [] || s[0] == '|' then 0 else 1 + Bar(s[1..])
  }

  datatype Token = Start | From(created: int, id: string)

  function EncodeToken(v: View): string { FormatInt(v.created) + "|" + v.id }

  function DecodeToken(token: string): Option<Token> {
    var s := TrimSpace(token);
    if s == "" then Some(Start)
    else
      var k := Bar(s);
      if k == |s| || k + 1 == |s| then None
      else
        var created := ParseInt(s[..k]);
        if created.None? then None else Some(From(created.value, s[k + 1..]))
  }

  lemma {:induction false} TrimRightIsPrefix(s: string)
    ensures TrimRight(s) <= s && (TrimRight(s) == s <==> s == [] || !IsSpace(s[|s| - 1]))
  {
    if s != [] && IsSpace(s[|s| - 1]) { TrimRightIsPrefix(s[..|s| - 1]); }
  }

  predicate AllSpace(s: string) { forall i :: 0 <= i < |s| ==> IsSpace(s[i]) }

  lemma {:induction false} LeftCut(s: string) returns (left: string)
    ensures s == left + TrimLeft(s) && AllSpace(left)
    ensures TrimLeft(s) != "" ==> !IsSpace(TrimLeft(s)[0])
  {
    hide IsSpace;
    left := "";
    if s != "" && IsSpace(s[0]) {
      left := LeftCut(s[1..]);
      assert s == [s[0]] + s[1..];
      left := [s[0]] + left;
    }
  }

  lemma {:induction false} RightCut(s: string) returns (right: string)
    ensures s == TrimRight(s) + right && AllSpace(right)
    ensures TrimRight(s) != "" ==> !IsSpace(TrimRight(s)[|TrimRight(s)| - 1])
  {
    hide IsSpace;
    right := "";
    if s != "" && IsSpace(s[|s| - 1]) {
      right := RightCut(s[..|s| - 1]);
      assert s == s[..|s| - 1] + [s[|s| - 1]];
      right := right + [s[|s| - 1]];
    }
  }

  /** White space around a token is cut away, and only that. */
  lemma TrimmedIs(s: string)
    ensures exists left, right :: s == left + TrimSpace(s) + right && AllSpace(left) && AllSpace(right)
    ensures TrimSpace(s) != "" ==> !IsSpace(TrimSpace(s)[0]) && !IsSpace(TrimSpace(s)[|TrimSpace(s)| - 1])
  {
    hide IsSpace, AllSpace;
    var left := LeftCut(s);
    var right := RightCut(TrimLeft(s));
    assert s == left + TrimSpace(s) + right;
    if TrimSpace(s) != "" {
      assert TrimSpace(s)[0] == TrimLeft(s)[0];
    }
  }

  lemma {:induction false} TrimRightAppend(p: string, id: string)
    requires p != [] && !IsSpace(p[|p| - 1])
    ensures TrimRight(p + id) == p + TrimRight(id)
  {
    if id != [] && IsSpace(id[|id| - 1]) {
      assert (p + id)[..|p + id| - 1] == p + id[..|id| - 1];
      TrimRightAppend(p, id[..|id| - 1]);
    } else if id == [] {
      assert p + id == p;
    }
  }

  lemma FormatStarts(n: int)
    ensures FormatInt(n) != [] && !IsSpace(FormatInt(n)[0])
    ensures forall i :: 0 <= i < |FormatInt(n)| ==> FormatInt(n)[i] != '|'
  {
    if n >= 0 { assert IsDigit(FormatNat(n)[0]); }
  }

  lemma {:induction false} BarAfter(f: string, id: string)
    requires forall i :: 0 <= i < |f| ==> f[i] != '|'
    ensures Bar(f + "|" + id) == |f|
  {
    if f != [] {
      assert (f + "|" + id)[1..] == f[1..] + "|" + id;
      BarAfter(f[1..], id);
    }
  }

  /** A token decodes to the mail's moment and its ID without trailing white space, and
      is refused when nothing of the ID is left. */
  lemma TokenDecodes(v: View)
    requires MIN_INT64 <= v.created <= MAX_INT64
    ensures DecodeToken(EncodeToken(v)) == if TrimRight(v.id) == "" then None else Some(From(v.created, TrimRight(v.id)))
  {
    hide ParseInt, FormatInt;
    var t, f, id := EncodeToken(v), FormatInt(v.created), TrimRight(v.id);
    FormatStarts(v.created);
    ParseFormatted(v.created);
    assert t[0] == f[0] && TrimLeft(t) == t;
    assert t == (f + "|") + v.id;
    TrimRightAppend(f + "|", v.id);
    var s := f + "|" + id;
    assert TrimSpace(t) == s;
    BarAfter(f, id);
    assert s[..|f|] == f && s[|f| + 1..] == id;
  }

  /** A token brings back the mail it was made from exactly when that mail's ID is not
      empty and does not end in white space. */
  lemma TokenRoundTripIff(v: View)
    requires MIN_INT64 <= v.created <= MAX_INT64
    ensures DecodeToken(EncodeToken(v)) == Some(From(v.created, v.id)) <==> v.id != "" && !IsSpace(v.id[|v.id| - 1])
  {
    TokenDecodes(v);
    TrimRightIsPrefix(v.id);
  }

  // ------------------------------------------------------------- pages

  /** afterPageToken. */
  predicate After(v: View, token: Token) {
    token.Start? || token.id == "" ||
    if v.created != token.created then v.created < token.created else Smaller(v.id, token.id)
  }

  function Following(views: seq<View>, token: Token): (r: seq<View>)
    ensures |r| <= |views|
  {
    if views == [] then []
    else
      var rest := Following(views[..|views| - 1], token);
      if After(views[|views| - 1], token) then rest + [views[|views| - 1]] else rest
  }

  /** The page size a request gets. */
  function Size(requested: int): (n: nat)
    ensures 1 <= n <= MAX_PAGE_SIZE
  {
    if requested <= 0 then DEFAULT_PAGE_SIZE else if requested > MAX_PAGE_SIZE then MAX_PAGE_SIZE else requested
  }

  datatype Page = Page(mails: seq<View>, next: string)

  /** A page is the first mails after the token, and has a next token when there are more. */
  function PageAt(views: seq<View>, size: nat, token: Token): Page
    requires size > 0
  {
    var f := Following(views, token);
    if |f| <= size then Page(f, "") else Page(f[..size], EncodeToken(f[size - 1]))
  }

  /** What comes after a token: any mail after the start, and otherwise the older ones and
      those of its moment with a smaller ID. */
  lemma AfterMeans(v: View, token: Token)
    ensures After(v, token) <==>
      || token.Start?
      || token.id == ""
      || v.created < token.created
      || (&& v.created == token.created
          && exists k :: 0 <= k <= |v.id| && k < |token.id| && v.id[..k] == token.id[..k]
               && (k == |v.id| || v.id[k] < token.id[k]))
  {
    if token.From? { SmallerMeans(v.id, token.id); }
  }

  lemma {:induction false} FollowingAre(views: seq<View>, token: Token)
    ensures forall v :: v in Following(views, token) <==> v in views && After(v, token)
  {
    if views != [] {
      FollowingAre(views[..|views| - 1], token);
      assert views == views[..|views| - 1] + [views[|views| - 1]];
    }
  }

  /** A page is full or the last: it holds mails after the token only, at most 20 or the
      requested number up to 50, all of them when it has no next token, and otherwise as
      many as asked for, the next token being the last one's. */
  lemma PageMeans(views: seq<View>, requested: int, token: Token)
    ensures var size := if requested <= 0 then 20 else if requested > 50 then 50 else requested;
      var page := PageAt(views, Size(requested), token);
      && |page.mails| <= size
      && (forall v :: v in page.mails ==> v in views && After(v, token))
      && (page.next == "" ==> forall v :: v in views && After(v, token) ==> v in page.mails)
      && (page.next != "" ==> |page.mails| == size && page.next == EncodeToken(page.mails[size - 1]))
  {
    hide After;
    FollowingAre(views, token);
    var f := Following(views, token);
    if |f| > Size(requested) { TokenNotEmpty(f[Size(requested) - 1]); }
  }

  /** The page loop of OpenMailbox; a token that does not decode is refused. */
  method OpenMailbox(views: seq<View>, requested: int, token: string) returns (r: Option<Page>)
    ensures r == if DecodeToken(token).None? then None else Some(PageAt(views, Size(requested), DecodeToken(token).value))
  {
    var pageSize := requested;
    if pageSize <= 0 { pageSize := DEFAULT_PAGE_SIZE; }
    if pageSize > MAX_PAGE_SIZE { pageSize := MAX_PAGE_SIZE; }
    var from := DecodeToken(token);
    if from.None? { return None; }
    var page, nextToken := [], "";
    var i := 0;
    while i < |views|
      invariant i <= |views| && |page| <= pageSize && page == Following(views[..i], from.value)
    {
      var view := views[i];
      assert views[..i + 1][..i] == views[..i];
      if After(view, from.value) {
        if |page| == pageSize {
          nextToken := EncodeToken(page[|page| - 1]);
          PageStops(views, i, from.value, pageSize);
          return Some(Page(page, nextToken));
        }
        page := page + [view];
      }
      i := i + 1;
    }
    assert views[..i] == views;
    return Some(Page(page, nextToken));
  }

  lemma PageStops(views: seq<View>, i: nat, token: Token, size: nat)
    requires i < |views| && After(views[i], token) && |Following(views[..i], token)| == size > 0
    ensures PageAt(views, size, token) ==
      Page(Following(views[..i], token), EncodeToken(Following(views[..i], token)[size - 1]))
  {
    assert views[..i + 1][..i] == views[..i];
    FollowingGrows(views, i + 1, token);
    var f, p := Following(views, token), Following(views[..i], token);
    assert p + [views[i]] <= f;
    assert f[..size] == p;
  }

  lemma {:induction false} FollowingGrows(views: seq<View>, n: nat, token: Token)
    requires n <= |views|
    ensures Following(views[..n], token) <= Following(views, token)
    decreases |views|
  {
    if n < |views| {
      var m := |views| - 1;
      assert views[..m][..n] == views[..n];
      FollowingGrows(views[..m], n, token);
    } else {
      assert views[..n] == views;
    }
  }

  /** The token made from `a` lets `b`, the next mail, through. It always does when the
      ID of `a` does not end in white space. */
  predicate LeadsOn(a: View, b: View) {
    TrimRight(a.id) != "" && (b.created < a.created || Smaller(b.id, TrimRight(a.id)))
  }

  lemma CleanIdsLeadOn(a: View, b: View)
    requires Ahead(a, b) && a.id != "" && !IsSpace(a.id[|a.id| - 1])
    ensures LeadsOn(a, b)
  {
    TrimRightIsPrefix(a.id);
  }

  function TokenOf(v: View): Token { From(v.created, TrimRight(v.id)) }

  lemma {:induction false} PrefixIsNotLarger(t: string, s: string)
    requires t <= s
    ensures !Smaller(s, t)
    decreases |t|
  {
    if t != [] { PrefixIsNotLarger(t[1..], s[1..]); }
  }

  /** Whatever the token, no mail up to its own comes after it. */
  lemma NotAfterOwn(views: seq<View>, i: nat, k: nat)
    requires Descending(views) && i < k <= |views| && TrimRight(views[k - 1].id) != ""
    ensures !After(views[i], TokenOf(views[k - 1]))
  {
    var own, t := views[k - 1], TrimRight(views[k - 1].id);
    TrimRightIsPrefix(own.id);
    PrefixIsNotLarger(t, own.id);
    if i < k - 1 {
      assert Ahead(views[i], own);
      if views[i].created == own.created && Smaller(views[i].id, t) { SmallerTwice(own.id, views[i].id, t); }
    }
  }

  lemma {:induction false} NothingBefore(views: seq<View>, k: nat, n: nat)
    requires Descending(views) && 0 < k <= |views| && n <= k && TrimRight(views[k - 1].id) != ""
    ensures Following(views[..n], TokenOf(views[k - 1])) == []
    decreases n
  {
    if n > 0 {
      assert views[..n][..n - 1] == views[..n - 1];
      NothingBefore(views, k, n - 1);
      NotAfterOwn(views, n - 1, k);
    }
  }

  lemma RestIsAfter(views: seq<View>, k: nat, j: nat)
    requires Descending(views) && 0 < k <= j < |views| && LeadsOn(views[k - 1], views[k])
    ensures After(views[j], TokenOf(views[k - 1]))
  {
    if j > k {
      assert Ahead(views[k - 1], views[k]) && Ahead(views[k], views[j]);
      if views[j].created == views[k - 1].created { SmallerTwice(views[j].id, views[k].id, TrimRight(views[k - 1].id)); }
    }
  }

  /** In a sorted mailbox a token that leads on is followed by exactly the rest. */
  lemma {:induction false} FollowingIsRest(views: seq<View>, k: nat, n: nat)
    requires Descending(views) && 0 < k <= n <= |views| && k < |views| && LeadsOn(views[k - 1], views[k])
    ensures Following(views[..n], TokenOf(views[k - 1])) == views[k..n]
    decreases n
  {
    if n == k {
      NothingBefore(views, k, k);
    } else {
      hide LeadsOn, After, TokenOf, Ahead;
      assert views[..n][..n - 1] == views[..n - 1];
      FollowingIsRest(views, k, n - 1);
      RestIsAfter(views, k, n - 1);
      assert views[k..n] == views[k..n - 1] + [views[n - 1]];
    }
  }

  lemma {:induction false} FollowingStart(views: seq<View>)
    ensures Following(views, Start) == views
  {
    if views != [] { FollowingStart(views[..|views| - 1]); }
  }

  predicate InRange(views: seq<View>) {
    forall i :: 0 <= i < |views| ==> MIN_INT64 <= views[i].created <= MAX_INT64
  }

  /** Every mail's token lets the next mail through. */
  predicate Chained(views: seq<View>) {
    forall k :: 0 < k < |views| ==> LeadsOn(views[k - 1], views[k])
  }

  predicate Followable(views: seq<View>) { Descending(views) && InRange(views) && Chained(views) }

  /** A client asks again with each next token, with whatever size, until there is none;
      it collects the mails, and stops with an error if a token is refused. */
  function Collect(views: seq<View>, sizes: seq<int>, token: string): (seq<View>, Option<string>)
    decreases |sizes|
  {
    if sizes == [] then ([], Some(token))
    else
      var from := DecodeToken(token);
      if from.None? then ([], None)
      else
        var page := PageAt(views, Size(sizes[0]), from.value);
        if page.next == "" then (page.mails, Some(""))
        else
          var (more, end) := Collect(views, sizes[1..], page.next);
          (page.mails + more, end)
  }

  function Total(sizes: seq<int>): nat
    decreases |sizes|
  {
    if sizes == [] then 0 else Size(sizes[0]) + Total(sizes[1..])
  }

  lemma {:induction false} TotalAtLeast(sizes: seq<int>)
    ensures Total(sizes) >= |sizes|
    decreases |sizes|
  {
    if sizes != [] { TotalAtLeast(sizes[1..]); }
  }

  function TokenAt(views: seq<View>, k: nat): string
    requires k <= |views|
  {
    if k == 0 then "" else EncodeToken(views[k - 1])
  }

  lemma PageFrom(views: seq<View>, size: nat, k: nat)
    requires Descending(views) && InRange(views) && size > 0 && (k == 0 || (k < |views| && LeadsOn(views[k - 1], views[k])))
    ensures var from := DecodeToken(TokenAt(views, k));
      && from.Some?
      && PageAt(views, size, from.value) ==
           if |views| - k <= size then Page(views[k..], "") else Page(views[k..k + size], TokenAt(views, k + size))
  {
    hide LeadsOn, Descending, DecodeToken, EncodeToken, Following;
    if k == 0 {
      StartDecodes();
      FollowingStart(views);
      assert views[0..] == views;
    } else {
      TokenDecodes(views[k - 1]);
      LeadingHasId(views[k - 1], views[k]);
      FollowingIsRest(views, k, |views|);
      assert views[..|views|] == views;
      assert views[k..|views|] == views[k..];
    }
    if |views| - k > size {
      assert views[k..][..size] == views[k..k + size];
      assert views[k..][size - 1] == views[k + size - 1];
    }
  }

  lemma StartDecodes()
    ensures DecodeToken("") == Some(Start)
  {
  }

  lemma LeadingHasId(a: View, b: View)
    requires LeadsOn(a, b)
    ensures TrimRight(a.id) != ""
  {
  }

  lemma TokenNotEmpty(v: View)
    ensures EncodeToken(v) != ""
  {
  }

  function Stop(views: seq<View>, sizes: seq<int>, k: nat): nat {
    if k + Total(sizes) < |views| then k + Total(sizes) else |views|
  }

  lemma CollectStep(views: seq<View>, sizes: seq<int>, k: nat)
    requires Descending(views) && InRange(views) && sizes != [] && (k == 0 || (k < |views| && LeadsOn(views[k - 1], views[k])))
    ensures var n := Size(sizes[0]);
      Collect(views, sizes, TokenAt(views, k)) ==
        if |views| - k <= n then (views[k..], Some(""))
        else var (more, end) := Collect(views, sizes[1..], TokenAt(views, k + n)); (views[k..k + n] + more, end)
  {
    hide Descending, InRange, LeadsOn, PageAt, DecodeToken, EncodeToken, Size;
    PageFrom(views, Size(sizes[0]), k);
    if |views| - k > Size(sizes[0]) { TokenNotEmpty(views[k + Size(sizes[0]) - 1]); }
  }

  /** What collecting from position `k` must give. */
  predicate Collected(views: seq<View>, sizes: seq<int>, k: nat, seen: seq<View>, end: Option<string>)
    requires k <= |views|
  {
    && end.Some? && seen == views[k..Stop(views, sizes, k)]
    && (k > 0 || sizes != [] ==> (end.value == "" <==> k + Total(sizes) >= |views|))
  }

  lemma CollectedNone(views: seq<View>, k: nat)
    requires k < |views| || k == 0
    ensures Collected(views, [], k, Collect(views, [], TokenAt(views, k)).0, Collect(views, [], TokenAt(views, k)).1)
  {
    assert views[k..k] == [];
  }

  lemma CollectedOne(views: seq<View>, sizes: seq<int>, k: nat)
    requires sizes != [] && k <= |views| && |views| - k <= Size(sizes[0])
    ensures Collected(views, sizes, k, views[k..], Some(""))
  {
    assert views[k..|views|] == views[k..];
  }

  lemma CollectedMore(views: seq<View>, sizes: seq<int>, k: nat, more: seq<View>, end: Option<string>)
    requires sizes != [] && k + Size(sizes[0]) < |views|
    requires Collected(views, sizes[1..], k + Size(sizes[0]), more, end)
    ensures Collected(views, sizes, k, views[k..k + Size(sizes[0])] + more, end)
  {
    hide Size;
    var n, stop := Size(sizes[0]), Stop(views, sizes, k);
    assert stop == Stop(views, sizes[1..], k + n);
    assert views[k..stop] == views[k..k + n] + views[k + n..stop];
  }

  lemma {:induction false} CollectFrom(views: seq<View>, sizes: seq<int>, k: nat)
    requires Followable(views) && k <= |views| && (k == 0 || k < |views|)
    ensures Collected(views, sizes, k, Collect(views, sizes, TokenAt(views, k)).0, Collect(views, sizes, TokenAt(views, k)).1)
    decreases |sizes|
  {
    hide Descending, InRange, LeadsOn, Collect, Collected, TokenAt, Size;
    if sizes == [] {
      CollectedNone(views, k);
    } else {
      CollectStep(views, sizes, k);
      var n := Size(sizes[0]);
      if |views| - k <= n {
        CollectedOne(views, sizes, k);
      } else {
        CollectFrom(views, sizes[1..], k + n);
        var (more, end) := Collect(views, sizes[1..], TokenAt(views, k + n));
        CollectedMore(views, sizes, k, more, end);
      }
    }
  }

  /** Following the tokens with these page sizes gives every mail, in order and once. */
  predicate YieldsAll(views: seq<View>, sizes: seq<int>) { Collect(views, sizes, "") == (views, Some("")) }

  /** On an unchanged mailbox, asking with each next token from the empty one, with any
      page sizes, yields the mails in order, each once, and comes to an end: at the
      latest after as many calls as there are mails. */
  lemma PagesYieldEveryMailOnce(views: seq<View>, sizes: seq<int>)
    requires Followable(views)
    ensures Collect(views, sizes, "").0 == views[..Stop(views, sizes, 0)]
    ensures sizes != [] ==> (Collect(views, sizes, "").1 == Some("") <==> Total(sizes) >= |views|)
    ensures sizes != [] && |sizes| >= |views| ==> YieldsAll(views, sizes)
  {
    CollectFrom(views, sizes, 0);
    TotalAtLeast(sizes);
    assert views[..|views|] == views;
  }

  function Ones(n: nat): seq<int> { seq(n, _ => 1) }

  /** Up to the first token that does not lead on, pages of one mail follow the list. */
  lemma {:induction false} OnesFollow(views: seq<View>, k: nat, m: nat, n: nat)
    requires Descending(views) && InRange(views) && k <= m < |views|
    requires forall i :: 0 < i < m ==> LeadsOn(views[i - 1], views[i])
    requires n >= m - k
    ensures Collect(views, Ones(n), TokenAt(views, k)).0
      == views[k..m] + Collect(views, Ones(n - (m - k)), TokenAt(views, m)).0
    decreases m - k
  {
    hide LeadsOn, Descending, InRange, Collect, TokenAt;
    if k == m {
      assert views[k..m] == [];
    } else {
      CollectStep(views, Ones(n), k);
      assert Ones(n)[1..] == Ones(n - 1);
      OnesFollow(views, k + 1, m, n - 1);
      assert views[k..m] == views[k..k + 1] + views[k + 1..m];
    }
  }

  /** A token that does not lead on loses the next mail. */
  lemma NextMailIsLost(views: seq<View>, k: nat, n: nat)
    requires Descending(views) && InRange(views) && 0 < k < |views| && !LeadsOn(views[k - 1], views[k])
    ensures var seen := Collect(views, Ones(n), TokenAt(views, k)).0; seen == [] || seen[0] != views[k]
  {
    hide DecodeToken, EncodeToken, Descending, InRange;
    var own := views[k - 1];
    assert MIN_INT64 <= own.created <= MAX_INT64 by { InRangeAt(views, k - 1); }
    TokenDecodes(own);
    if n > 0 && TrimRight(own.id) != "" {
      assert Ones(n) != [] && Ones(n)[0] == 1;
      AheadAt(views, k - 1, k);
      assert !After(views[k], TokenOf(own));
      FollowingPasses(views, TokenOf(own));
      var f := Following(views, TokenOf(own));
      if f != [] { assert f[0] in f; }
    }
  }

  lemma InRangeAt(views: seq<View>, i: nat)
    requires InRange(views) && i < |views|
    ensures MIN_INT64 <= views[i].created <= MAX_INT64
  {
  }

  lemma AheadAt(views: seq<View>, i: nat, j: nat)
    requires Descending(views) && i < j < |views|
    ensures Ahead(views[i], views[j])
  {
  }

  lemma {:induction false} FollowingPasses(views: seq<View>, token: Token)
    ensures forall v :: v in Following(views, token) ==> After(v, token)
  {
    if views != [] { FollowingPasses(views[..|views| - 1], token); }
  }

  /** The whole law holds for every choice of page sizes if and only if every mail's
      token lets the next mail through; an ID ending in white space can lose one. */
  lemma EveryMailOnceIff(views: seq<View>)
    requires Descending(views) && InRange(views)
    ensures (forall sizes :: sizes != [] && |sizes| >= |views| ==> YieldsAll(views, sizes)) <==> Chained(views)
  {
    if Chained(views) {
      forall sizes | sizes != [] && |sizes| >= |views| ensures YieldsAll(views, sizes) {
        PagesYieldEveryMailOnce(views, sizes);
      }
    } else {
      var k := FirstBroken(views, 1);
      OnesFollow(views, 0, k, |views|);
      NextMailIsLost(views, k, |views| - k);
      assert !YieldsAll(views, Ones(|views|));
    }
  }

  lemma {:induction false} FirstBroken(views: seq<View>, from: nat) returns (k: nat)
    requires !Chained(views) && 0 < from <= |views|
    requires forall i :: 0 < i < from ==> LeadsOn(views[i - 1], views[i])
    ensures 0 < k < |views| && !LeadsOn(views[k - 1], views[k]) && forall i :: 0 < i < k ==> LeadsOn(views[i - 1], views[i])
    decreases |views| - from
  {
    if !LeadsOn(views[from - 1], views[from]) { k := from; } else { k := FirstBroken(views, from + 1); }
  }

  // ------------------------------------------------------------- the IDs there are

  predicate Clean(id: string) { id != "" && !IsSpace(id[|id| - 1]) }

  predicate AllClean(views: seq<View>) {
    forall i :: 0 <= i < |views| ==> Clean(views[i].id)
  }

  /** newMailID: the letter m, the moment and sixteen hexadecimal digits. */
  function NewMailId(now: int, raw: bytes): string { "m" + FormatInt(now) + Hex(raw) }

  lemma {:induction false} HexEnds(raw: bytes)
    requires raw != []
    ensures Hex(raw) != "" && !IsSpace(Hex(raw)[|Hex(raw)| - 1])
  {
    if |raw| > 1 {
      HexEnds(raw[1..]);
    } else {
      assert Hex(raw[1..]) == [];
    }
  }

  lemma NewIdsAreClean(now: int, raw: bytes)
    requires |raw| == 8
    ensures Clean(NewMailId(now, raw))
  {
    HexEnds(raw);
    assert NewMailId(now, raw)[|NewMailId(now, raw)| - 1] == Hex(raw)[|Hex(raw)| - 1];
  }

  /** A mailbox whose IDs were all made by newMailID keeps the law, for every choice of
      page sizes. */
  lemma OwnIdsYieldEveryMailOnce(views: seq<View>, sizes: seq<int>)
    requires Descending(views) && InRange(views) && sizes != [] && |sizes| >= |views|
    requires forall i :: 0 <= i < |views| ==> exists now, raw: bytes :: |raw| == 8 && views[i].id == NewMailId(now, raw)
    ensures YieldsAll(views, sizes)
  {
    forall i | 0 <= i < |views| ensures Clean(views[i].id) {
      var now, raw: bytes :| |raw| == 8 && views[i].id == NewMailId(now, raw);
      NewIdsAreClean(now, raw);
    }
    CleanMailboxes(views, sizes);
  }

  lemma CleanMailboxes(views: seq<View>, sizes: seq<int>)
    requires Descending(views) && InRange(views) && AllClean(views) && sizes != [] && |sizes| >= |views|
    ensures YieldsAll(views, sizes)
  {
    hide IsSpace, Ahead;
    forall k | 0 < k < |views| ensures LeadsOn(views[k - 1], views[k]) {
      assert Clean(views[k - 1].id);
      CleanIdsLeadOn(views[k - 1], views[k]);
    }
    PagesYieldEveryMailOnce(views, sizes);
  }

  const LOST := [View(1, "mb "), View(1, "mb")]

  /** A list that loses a mail: of two mails of one moment the first one's ID is the
      second one's and a space, so its token stands behind both. */
  lemma MailIsLost()
    ensures Descending(LOST) && InRange(LOST) && Collect(LOST, [1, 1], "") == ([LOST[0]], Some(""))
  {
    LostIsSorted();
    LostFirstPage();
    LostSecondPage();
    hide PageAt, DecodeToken, EncodeToken;
    TokenNotEmpty(LOST[0]);
    assert [1, 1][1..] == [1];
    var next := EncodeToken(LOST[0]);
    assert Collect(LOST, [1], next) == ([], Some(""));
    var (more, end) := Collect(LOST, [1, 1][1..], next);
    assert Collect(LOST, [1, 1], "") == ([LOST[0]] + more, end);
    assert [LOST[0]] + more == [LOST[0]];
  }

  lemma LostIsSorted()
    ensures Descending(LOST) && InRange(LOST) && TrimRight("mb ") == "mb"
  {
    assert "mb "[1..] == "b " && "mb"[1..] == "b" && "b "[1..] == " " && "b"[1..] == "";
    assert Smaller("mb", "mb ");
    assert "mb "[..2] == "mb";
  }

  lemma LostFirstPage()
    ensures DecodeToken("") == Some(Start) && PageAt(LOST, 1, Start) == Page([LOST[0]], EncodeToken(LOST[0]))
  {
    hide EncodeToken, DecodeToken;
    StartDecodes();
    FollowingStart(LOST);
    assert LOST[..1] == [LOST[0]];
  }

  lemma LostSecondPage()
    ensures DecodeToken(EncodeToken(LOST[0])) == Some(From(1, "mb")) && PageAt(LOST, 1, From(1, "mb")) == Page([], "")
  {
    hide EncodeToken, DecodeToken;
    LostIsSorted();
    TokenDecodes(LOST[0]);
    NotAfterOwn(LOST, 0, 1);
    NotSmaller("mb");
    NoneFollow(LOST, From(1, "mb"));
  }

  lemma NoneFollow(views: seq<View>, token: Token)
    requires |views| == 2 && !After(views[0], token) && !After(views[1], token)
    ensures Following(views, token) == []
  {
    assert Following(views[..1], token) == [] by { assert views[..1][..0] == []; }
  }
}
