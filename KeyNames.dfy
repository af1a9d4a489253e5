/**
 * Reading back the output object keys of the two segmentation handlers, both
 * of which end in "_K<k>" before their ".png": the text after the last '_'
 * is 'K' and the cluster count, because a printed integer holds no '_'.
 */
module KeyNames {
  import opened Wrappers
  import opened PyText

  /** "<p>_K<k>": a text followed by the cluster count. */
  function KName(p: string, k: int): string
  {
    p + "_K" + IntToString(k)
  }

  /** Splits "<p>_K<k>" at its last '_' into `p` and the integer `k`; None when the text has another form. */
  function SplitK(t: string): Option<(string, int)>
  {
    var u := RFind(t, '_');
    if u < 0 || u + 1 >= |t| || t[u + 1] != 'K' then None
    else
      match ParseInt(t[u + 2..])
      case Some(k) => Some((t[..u], k))
      case None => None
  }

  /** Any text followed by "_K" and a printed integer splits back into that text and that integer. */
  lemma SplitKRoundTrip(p: string, k: int)
    ensures SplitK(KName(p, k)) == Some((p, k))
  {
    var d := IntToString(k);
    var t := p + "_K" + d;
    IntToStringChars(k);
    assert t[|p|] == '_';
    forall j | |p| < j < |t| ensures t[j] != '_' {
      if j > |p| + 1 {
        assert t[j] == d[j - |p| - 2];
      }
    }
    RFindIsLast(t, '_', |p|);
    assert t[|p| + 2..] == d;
    assert t[..|p|] == p;
    IntStringRoundTrip(k);
  }
}
