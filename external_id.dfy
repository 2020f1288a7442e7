/** The provider's external id of a scene, `network#site#part#part...`:
    `GetMetadata` splits it on '#', parses the two leading tokens and hands
    the remaining tokens to the provider's `Update`. */
module ExternalId {
  import opened Wrappers
  import opened Numerals

  const Separator: char := '#'

  /** `s.Split('#')`: one token more than there are separators, empty tokens kept. */
  function Split(s: string): (r: seq<string>)
    ensures |r| >= 1
    ensures forall i :: 0 <= i < |r| ==> Separator !in r[i]
  {
    if |s| == 0 then [""]
    else
      var rest := Split(s[1..]);
      if s[0] == Separator then [""] + rest else [[s[0]] + rest[0]] + rest[1..]
  }

  /** `string.Join("#", parts)`. */
  function Join(parts: seq<string>): string
    requires |parts| >= 1
  {
    if |parts| == 1 then parts[0] else parts[0] + [Separator] + Join(parts[1..])
  }

  predicate SeparatorFree(parts: seq<string>) {
    forall i :: 0 <= i < |parts| ==> Separator !in parts[i]
  }

  /** Joining the tokens of a split gives the string back. */
  lemma {:induction false} JoinSplit(s: string)
    ensures Join(Split(s)) == s
  {
    if |s| > 0 {
      var rest := Split(s[1..]);
      JoinSplit(s[1..]);
      if s[0] != Separator {
        var parts := Split(s);
        assert parts[1..] == rest[1..];
        if |rest| > 1 {
          assert Join(rest) == rest[0] + [Separator] + Join(rest[1..]);
        }
      }
    }
  }

  /** Splitting a separator-free head followed by anything. */
  lemma {:induction false} SplitFreePrefix(a: string, b: string)
    requires Separator !in a
    ensures Split(a + b) == [a + Split(b)[0]] + Split(b)[1..]
  {
    if |a| > 0 {
      SplitFreePrefix(a[1..], b);
      assert (a + b)[1..] == a[1..] + b;
      assert (a + b)[0] == a[0] && a[0] != Separator;
      var rest := Split(a[1..] + b);
      assert Split(a + b) == [[a[0]] + rest[0]] + rest[1..];
      assert [a[0]] + (a[1..] + Split(b)[0]) == a + Split(b)[0];
    } else {
      assert a == [];
      assert a + b == b;
      assert a + Split(b)[0] == Split(b)[0];
      assert Split(b) == [Split(b)[0]] + Split(b)[1..];
    }
  }

  /** Splitting the join of separator-free tokens gives the tokens back. */
  lemma {:induction false} SplitJoin(parts: seq<string>)
    requires |parts| >= 1 && SeparatorFree(parts)
    ensures Split(Join(parts)) == parts
  {
    if |parts| == 1 {
      SplitFreePrefix(parts[0], "");
      assert parts[0] + "" == parts[0];
    } else {
      var tail := Join(parts[1..]);
      SplitJoin(parts[1..]);
      SplitFreePrefix(parts[0], [Separator] + tail);
      assert parts[0] + [Separator] + tail == parts[0] + ([Separator] + tail);
      assert Split([Separator] + tail) == [""] + parts[1..];
      assert parts[0] + "" == parts[0];
    }
  }

  /** A decoded id: the network and site numbers that select the provider,
      and the scene-specific tokens passed on to it. */
  datatype SceneId = SceneId(network: int, site: int, parts: seq<string>)

  /** The two leading tokens of an id long enough to be decoded parse as
      32-bit integers (`int.Parse` throws otherwise, which is not modelled). */
  predicate HeadTokensParse(id: string) {
    var tokens := Split(id);
    |tokens| >= 3 ==> IsInt32Text(tokens[0]) && IsInt32Text(tokens[1])
  }

  /** `curID = externalID.Split('#')`, the length check and the parsing of
      the two leading tokens. */
  function Decode(id: string): (r: Option<SceneId>)
    requires HeadTokensParse(id)
    ensures r.None? <==> |Split(id)| < 3
    ensures r.Some? ==>
      && Int32Min <= r.value.network <= Int32Max && Int32Min <= r.value.site <= Int32Max
      && |r.value.parts| >= 1 && SeparatorFree(r.value.parts)
  {
    var tokens := Split(id);
    if |tokens| < 3 then None
    else Some(SceneId(ParseInt32(tokens[0]), ParseInt32(tokens[1]), tokens[2..]))
  }

  /** The form providers give their ids. */
  function Encode(x: SceneId): string {
    Join([IntToText(x.network), IntToText(x.site)] + x.parts)
  }

  /** An id with fewer than three tokens is rejected; otherwise the tokens
      handed to `Update` are exactly those after the first two, they hold no
      separator, and putting the two leading tokens back in front restores the id. */
  lemma DecodeSplitsOffHead(id: string)
    requires HeadTokensParse(id)
    ensures Decode(id).None? <==> |Split(id)| < 3
    ensures Decode(id).Some? ==>
      var tokens, x := Split(id), Decode(id).value;
      && x.parts == tokens[2..]
      && SeparatorFree(x.parts)
      && Join([tokens[0], tokens[1]] + x.parts) == id
  {
    var tokens := Split(id);
    if |tokens| >= 3 {
      assert [tokens[0], tokens[1]] + tokens[2..] == tokens;
      JoinSplit(id);
    }
  }

  lemma IntToTextHasNoSeparator(n: int)
    ensures Separator !in IntToText(n)
  {
  }

  /** Round trip: an id built from 32-bit network and site numbers and at
      least one separator-free scene token decodes to exactly those values. */
  lemma DecodeEncode(x: SceneId)
    requires Int32Min <= x.network <= Int32Max && Int32Min <= x.site <= Int32Max
    requires |x.parts| >= 1 && SeparatorFree(x.parts)
    ensures HeadTokensParse(Encode(x)) && Decode(Encode(x)) == Some(x)
  {
    var tokens := [IntToText(x.network), IntToText(x.site)] + x.parts;
    IntToTextHasNoSeparator(x.network);
    IntToTextHasNoSeparator(x.site);
    SplitJoin(tokens);
    ParseIntToText(x.network);
    ParseIntToText(x.site);
    assert tokens[2..] == x.parts;
  }

  /** An id with no scene token at all is one the decoder rejects. */
  lemma EncodeWithoutPartsRejected(network: int, site: int)
    ensures HeadTokensParse(Encode(SceneId(network, site, [])))
    ensures Decode(Encode(SceneId(network, site, []))) == None
  {
    var tokens := [IntToText(network), IntToText(site)];
    IntToTextHasNoSeparator(network);
    IntToTextHasNoSeparator(site);
    assert tokens + [] == tokens;
    SplitJoin(tokens);
  }
}
