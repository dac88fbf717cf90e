/** The release manifest's digest: what is fed to the hash, chunk by chunk. */
module ManifestDigest {
  newtype Byte = b: int | 0 <= b < 256

  const CR: Byte := 13
  const LF: Byte := 10

  predicate StartsWithCRLF(s: seq<Byte>) { |s| >= 2 && s[0] == CR && s[1] == LF }

  /** Every CRLF replaced by LF. */
  function Normalized(s: seq<Byte>): seq<Byte> {
    if StartsWithCRLF(s) then [LF] + Normalized(s[2..])
    else if s == [] then []
    else [s[0]] + Normalized(s[1..])
  }

  predicate EndsInCR(s: seq<Byte>) { s != [] && s[|s| - 1] == CR }

  function Whole(chunks: seq<seq<Byte>>): seq<Byte> {
    if chunks == [] then [] else Whole(chunks[..|chunks| - 1]) + chunks[|chunks| - 1]
  }

  lemma NormalizedStep(s: seq<Byte>)
    ensures s == [] ==> Normalized(s) == []
    ensures StartsWithCRLF(s) ==> Normalized(s) == [LF] + Normalized(s[2..])
    ensures s != [] && !StartsWithCRLF(s) ==> Normalized(s) == [s[0]] + Normalized(s[1..])
  {
  }

  /** Normalising in two parts is normalising the whole, unless a CRLF is cut in two. */
  lemma {:induction false} NormalizedInParts(a: seq<Byte>, b: seq<Byte>)
    requires !(EndsInCR(a) && b != [] && b[0] == LF)
    ensures Normalized(a + b) == Normalized(a) + Normalized(b)
    decreases |a|
  {
    hide Normalized;
    if a == [] {
      NormalizedStep(a);
      assert a + b == b;
    } else if StartsWithCRLF(a) {
      assert (a + b)[2..] == a[2..] + b;
      NormalizedInParts(a[2..], b);
      NormalizedStep(a);
      NormalizedStep(a + b);
    } else {
      assert (a + b)[1..] == a[1..] + b;
      NormalizedInParts(a[1..], b);
      assert !StartsWithCRLF(a + b);
      NormalizedStep(a);
      NormalizedStep(a + b);
    }
  }

  /** `digest`: the bytes given to the hash, in the order they are given. Main result: they
      are the whole content, normalised, however it was split into chunks. */
  method Fed(chunks: seq<seq<Byte>>) returns (fed: seq<Byte>)
    ensures fed == Normalized(Whole(chunks))
  {
    hide Normalized, Whole;
    NothingYet();
    fed := [];
    var carry: seq<Byte> := [];
    ghost var done: seq<Byte> := [];
    for k := 0 to |chunks|
      invariant Whole(chunks[..k]) == done + carry && fed == Normalized(done)
      invariant carry == [CR] || (carry == [] && !EndsInCR(done))
    {
      WholeNext(chunks, k);
      var data := carry + chunks[k];
      assert Whole(chunks[..k + 1]) == done + data;
      if data != [] && data[|data| - 1] == CR {
        carry, data := [CR], data[..|data| - 1];
      } else {
        carry := [];
      }
      NormalizedInParts(done, data);
      fed := fed + Normalized(data);
      done := done + data;
    }
    assert chunks[..|chunks|] == chunks;
    if carry != [] {
      NormalizedInParts(done, carry);
      fed := fed + carry;
    } else {
      assert done + carry == done;
    }
  }

  lemma NothingYet()
    ensures Whole([]) == [] && Normalized([]) == [] && Normalized([CR]) == [CR]
  {
    assert [CR][1..] == [];
  }

  lemma WholeNext(chunks: seq<seq<Byte>>, k: nat)
    requires k < |chunks|
    ensures Whole(chunks[..k + 1]) == Whole(chunks[..k]) + chunks[k]
  {
    assert chunks[..k + 1][..k] == chunks[..k];
  }

  /** A checkout with CRLF line ends. */
  function CheckedOut(text: seq<Byte>): seq<Byte> {
    if text == [] then []
    else (if text[0] == LF then [CR, LF] else [text[0]]) + CheckedOut(text[1..])
  }

  /** A text without CR and its CRLF checkout feed the hash the same bytes: the text's own. */
  lemma {:induction false} LineEndsDoNotMatter(text: seq<Byte>)
    requires CR !in text
    ensures Normalized(text) == text && Normalized(CheckedOut(text)) == text
  {
    if text != [] {
      LineEndsDoNotMatter(text[1..]);
      var first := if text[0] == LF then [CR, LF] else [text[0]];
      NormalizedInParts(first, CheckedOut(text[1..]));
      assert Normalized([text[0]]) == [text[0]] by {
        assert [text[0]][1..] == [];
      }
      if text[0] == LF {
        assert first[2..] == [];
        assert Normalized(first) == [LF];
      }
    }
  }

  /** Only line ends are forgotten: two CR-free texts that differ feed different bytes, in
      either checkout. */
  lemma DifferentTextsDiffer(a: seq<Byte>, b: seq<Byte>)
    requires CR !in a && CR !in b && a != b
    ensures Normalized(CheckedOut(a)) != Normalized(b)
    ensures Normalized(CheckedOut(a)) != Normalized(CheckedOut(b))
  {
    LineEndsDoNotMatter(a);
    LineEndsDoNotMatter(b);
  }
}
