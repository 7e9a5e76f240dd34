/**
 * The serialisation of the manifest cache: the admission webhook joins the
 * rendered manifests with "\n---\n" before storing them in a secret
 * (api/v1/helmchart_webhook.go:108-109) and the HelmChart controller splits
 * the stored text on the same separator (controllers/helmchart_controller.go:125-126).
 */
module ManifestCodec {
  import opened Text

  const Separator := "\n---\n"

  /** The four characters of the separator before its final newline. */
  const SeparatorHead := "\n---"

  /** What the webhook stores under the secret key "manifests". */
  function Encode(manifests: seq<string>): string {
    Join(manifests, Separator)
  }

  /** What the controller reads back from that text. */
  function Decode(text: string): seq<string> {
    Split(text, Separator)
  }

  /**
   * A list of manifests survives the cache unchanged when it is non-empty,
   * no manifest contains the separator, and no manifest but the last ends
   * with "\n---" (such an ending and the separator's leading newline would
   * form an earlier separator).
   */
  predicate Cacheable(manifests: seq<string>) {
    && |manifests| > 0
    && (forall j :: 0 <= j < |manifests| ==> !Contains(manifests[j], Separator))
    && (forall j :: 0 <= j < |manifests| - 1 ==> !HasSuffix(manifests[j], SeparatorHead))
  }

  /** The first separator in d + Separator + rest is the one after d. */
  lemma FirstSeparatorAfter(d: string, rest: string)
    requires !Contains(d, Separator) && !HasSuffix(d, SeparatorHead)
    ensures Index(d + Separator + rest, Separator) == |d|
  {
    var t := d + Separator + rest;
    assert OccursAt(t, Separator, |d|) by {
      assert t[|d|..|d| + 5] == Separator;
    }
    forall i: nat | i < |d|
      ensures !OccursAt(t, Separator, i)
    {
      if i + 5 <= |d| {
        assert t[i..i + 5] == d[i..i + 5];
        if OccursAt(t, Separator, i) {
          assert OccursAt(d, Separator, i);
        }
      } else {
        var k := |d| - i;
        assert t[|d|] == '\n';
        if k < 4 {
          assert t[i..i + 5][k] == t[|d|] && Separator[k] == '-';
        } else {
          assert t[..|d|] == d;
          assert t[i..i + 4] == t[..|d|][i..] == d[|d| - 4..];
          assert t[i..i + 5][..4] == t[i..i + 4];
        }
      }
    }
    IndexIsFirst(t, Separator, |d|);
  }

  /** Decoding the encoding of a cacheable list gives the list back. */
  lemma {:induction false} DecodeEncode(manifests: seq<string>)
    requires Cacheable(manifests)
    ensures Decode(Encode(manifests)) == manifests
    decreases |manifests|
  {
    var d := manifests[0];
    if |manifests| == 1 {
      assert Encode(manifests) == d;
      assert !Contains(d, Separator);
    } else {
      var rest := manifests[1..];
      assert Cacheable(rest) by {
        forall j | 0 <= j < |rest| - 1 ensures !HasSuffix(rest[j], SeparatorHead) {
          assert rest[j] == manifests[j + 1];
        }
      }
      var t := Encode(manifests);
      assert t == d + Separator + Encode(rest);
      FirstSeparatorAfter(d, Encode(rest));
      assert t[..|d|] == d;
      assert t[|d| + |Separator|..] == Encode(rest);
      DecodeEncode(rest);
    }
  }

  /** The encoding of any decoded text is that text again. */
  lemma EncodeDecode(text: string)
    ensures Encode(Decode(text)) == text
  {
    JoinSplit(text, Separator);
  }

  /**
   * Separator-free manifests are not enough for the round trip: a manifest
   * ending in "\n---" is cut short and its neighbour gains a "---" line.
   */
  lemma NoSeparatorIsNotEnough()
    ensures var manifests := ["a\n---", "b"];
      && (forall j :: 0 <= j < |manifests| ==> !Contains(manifests[j], Separator))
      && Decode(Encode(manifests)) == ["a", "---\nb"]
  {
    var manifests := ["a\n---", "b"];
    assert !Contains(manifests[0], Separator) by {
      forall i: nat | i <= 5 ensures !OccursAt(manifests[0], Separator, i) {
        if i == 0 { assert manifests[0][0] != Separator[0]; }
      }
    }
    assert !Contains(manifests[1], Separator);
    var t := Encode(manifests);
    assert t == "a\n---\n---\nb";
    assert OccursAt(t, Separator, 1) by { assert t[1..6] == Separator; }
    assert !OccursAt(t, Separator, 0) by { assert t[0] != Separator[0]; }
    IndexIsFirst(t, Separator, 1);
    var rest := t[6..];
    assert rest == "---\nb";
    assert !Contains(rest, Separator) by {
      forall i: nat | i <= |rest| ensures !OccursAt(rest, Separator, i) {
        if i + 5 <= |rest| { assert i == 0; assert rest[0] != Separator[0]; }
      }
    }
    assert Decode(t) == [t[..1]] + Split(rest, Separator);
    assert t[..1] == "a";
  }
}
