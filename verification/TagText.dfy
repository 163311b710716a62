module TagText {
  // How tags travel as text: decimal numbers, a tag per addition, and lists of
  // tags separated by commas.

  import opened TagStore
  import opened Text

  // ---------------------------------------------------------------------
  // Decimal numbers
  // ---------------------------------------------------------------------

  function Digit(d: nat): char
    requires d < 10
  {
    '0' + d as char
  }

  predicate IsDigit(c: char) {
    '0' <= c <= '9'
  }

  /** std::to_string of a number that is not negative. */
  function Decimal(n: nat): (s: string)
    ensures s != "" && forall i :: 0 <= i < |s| ==> IsDigit(s[i])
  {
    if n < 10 then [Digit(n)] else Decimal(n / 10) + [Digit(n % 10)]
  }

  function Number(s: string): nat
    requires forall i :: 0 <= i < |s| ==> IsDigit(s[i])
  {
    if s == "" then 0
    else
      assert IsDigit(s[|s| - 1]);
      10 * Number(s[..|s| - 1]) + (s[|s| - 1] as int - '0' as int)
  }

  lemma {:induction false} DecimalRoundTrip(n: nat)
    ensures Number(Decimal(n)) == n
  {
    if n < 10 {
      assert Decimal(n)[..0] == "";
    } else {
      DecimalRoundTrip(n / 10);
      assert Decimal(n)[..|Decimal(n)| - 1] == Decimal(n / 10);
    }
  }

  // ---------------------------------------------------------------------
  // Tags
  // ---------------------------------------------------------------------

  /** The tag of the n-th addition of a replica. */
  function TagOf(self: nat, n: nat): Tag {
    Decimal(self) + "." + Decimal(n)
  }

  /** Different additions have different tags. */
  lemma TagsDiffer(self: nat, n: nat, self': nat, n': nat)
    requires TagOf(self, n) == TagOf(self', n')
    ensures self == self' && n == n'
  {
    var a, b := Decimal(self), Decimal(self');
    var s := TagOf(self, n);
    FindIs(s, '.', |a|);
    FindIs(s, '.', |b|);
    assert a == s[..|a|] == b;
    assert Decimal(n) == s[|a| + 1..] == Decimal(n');
    DecimalRoundTrip(self);
    DecimalRoundTrip(self');
    DecimalRoundTrip(n);
    DecimalRoundTrip(n');
  }

  /** Text that can stand in a list of tags: not empty, and without separators. */
  predicate Plain(t: Tag) {
    t != "" && ',' !in t && '|' !in t && '-' !in t
  }

  lemma TagIsPlain(self: nat, n: nat)
    ensures Plain(TagOf(self, n))
  {
  }

  // ---------------------------------------------------------------------
  // Lists of tags
  // ---------------------------------------------------------------------

  /** The tags in some order, with commas between them. */
  function Encoded(order: seq<Tag>): string {
    if order == [] then ""
    else
      var before := Encoded(order[..|order| - 1]);
      (if before == "" then "" else before + ",") + order[|order| - 1]
  }

  function Decoded(s: string): set<Tag>
    decreases |s|
  {
    if s == "" then {}
    else
      var k := Find(s, ',');
      {s[..k]} + if k == |s| then {} else Decoded(s[k + 1..])
  }

  lemma DecodeOne(t: Tag)
    requires Plain(t)
    ensures Decoded(t) == {t}
  {
    FindIs(t, ',', |t|);
    assert t[..|t|] == t;
  }

  lemma {:induction false} DecodeMore(s: string, t: Tag)
    requires s != "" && s[|s| - 1] != ',' && Plain(t)
    ensures Decoded(s + "," + t) == Decoded(s) + {t}
    decreases |s|
  {
    var k, whole := Find(s, ','), s + "," + t;
    if k == |s| {
      FindIs(whole, ',', k);
      assert whole[..k] == s[..k] == s && whole[k + 1..] == t;
      DecodeOne(t);
    } else {
      FindIs(whole, ',', k);
      assert whole[..k] == s[..k] && whole[k + 1..] == s[k + 1..] + "," + t;
      DecodeMore(s[k + 1..], t);
    }
  }

  predicate AllPlain(order: seq<Tag>) {
    forall i :: 0 <= i < |order| ==> Plain(order[i])
  }

  function TagSet(order: seq<Tag>): set<Tag> {
    set t | t in order
  }

  lemma EncodedMore(order: seq<Tag>)
    requires order != []
    ensures var before, t := Encoded(order[..|order| - 1]), order[|order| - 1];
            Encoded(order) == if before == "" then t else before + "," + t
  {
  }

  lemma TagSetMore(order: seq<Tag>)
    requires order != []
    ensures TagSet(order) == TagSet(order[..|order| - 1]) + {order[|order| - 1]}
  {
    assert order == order[..|order| - 1] + [order[|order| - 1]];
  }

  /** Whatever the order, decoding gives back the set of tags that was encoded. */
  lemma {:induction false} TagsRoundTrip(order: seq<Tag>)
    requires AllPlain(order)
    ensures Decoded(Encoded(order)) == TagSet(order)
    ensures order != [] ==> Encoded(order) != "" && Encoded(order)[|Encoded(order)| - 1] != ','
  {
    if order == [] {
      assert TagSet(order) == {};
    } else {
      hide Encoded, Decoded, TagSet;
      var before, t := order[..|order| - 1], order[|order| - 1];
      TagsRoundTrip(before);
      EncodedMore(order);
      TagSetMore(order);
      assert t[|t| - 1] in t;
      if before == [] {
        NoTags();
        DecodeOne(t);
      } else {
        DecodeMore(Encoded(before), t);
      }
    }
  }

  lemma NoTags()
    ensures Encoded([]) == "" && TagSet([]) == {}
  {
  }

  predicate PlainTags(tags: set<Tag>) {
    forall t :: t in tags ==> Plain(t)
  }

  /** encodeTags.  Tags with commas in them, which no object makes, would come apart. */
  method EncodeTags(tags: set<Tag>) returns (encoded: string)
    ensures PlainTags(tags) ==> Decoded(encoded) == tags && (encoded == "" <==> tags == {})
  {
    hide Encoded, Decoded, TagSet;
    encoded := "";
    var rest := tags;
    ghost var order: seq<Tag> := [];
    NoTags();
    while rest != {}
      invariant rest <= tags && TagSet(order) == tags - rest && encoded == Encoded(order)
      decreases |rest|
    {
      var tag :| tag in rest;
      if encoded != "" {
        encoded := encoded + ",";
      }
      encoded := encoded + tag;
      rest := rest - {tag};
      assert (order + [tag])[..|order|] == order;
      EncodedMore(order + [tag]);
      TagSetMore(order + [tag]);
      order := order + [tag];
    }
    if PlainTags(tags) {
      AllArePlain(order);
      TagsRoundTrip(order);
      SomethingOrdered(order);
    }
  }

  lemma AllArePlain(order: seq<Tag>)
    requires PlainTags(TagSet(order))
    ensures AllPlain(order)
  {
    forall i | 0 <= i < |order| ensures Plain(order[i]) { assert order[i] in TagSet(order); }
  }

  lemma SomethingOrdered(order: seq<Tag>)
    ensures order != [] ==> TagSet(order) != {}
  {
    if order != [] {
      assert order[0] in TagSet(order);
    }
  }

  lemma DecodeFrom(s: string, begin: nat)
    requires begin < |s|
    ensures var end := begin + Find(s[begin..], ',');
            Decoded(s[begin..]) == {s[begin..end]} + if end == |s| then {} else Decoded(s[end + 1..])
  {
    var k := Find(s[begin..], ',');
    assert s[begin..][..k] == s[begin..begin + k];
    if k < |s| - begin {
      assert s[begin..][k + 1..] == s[begin + k + 1..];
    }
  }

  /** decodeTags. */
  method DecodeTags(encoded: string) returns (tags: set<Tag>)
    ensures tags == Decoded(encoded)
  {
    hide Decoded;
    tags := {};
    var begin := 0;
    assert encoded[0..] == encoded;
    while begin < |encoded|
      invariant begin <= |encoded|
      invariant tags + Decoded(encoded[begin..]) == Decoded(encoded)
    {
      var end := begin + Find(encoded[begin..], ',');
      DecodeFrom(encoded, begin);
      tags := tags + {encoded[begin..end]};
      if end == |encoded| {
        return tags;
      }
      begin := end + 1;
    }
    DecodeOfNothing(encoded[begin..]);
  }

  lemma DecodeOfNothing(s: string)
    requires s == ""
    ensures Decoded(s) == {}
  {
  }
}
