/** How the settings screen shows a saved OSINT Industries API key in the
    log: at most its first and last three characters, around "***". */
module SettingsMask {
  import opened Seqs

  const Stars: string := "***"

  function MaskKey(key: string): (r: string)
    ensures |key| <= 6 ==> r == Stars
    ensures |key| > 6 ==> r == key[..3] + Stars + key[|key| - 3..]
  {
    if |key| > 6 then Take(key, 3) + Stars + TakeLast(key, 3) else Stars
  }

  /** The mask is three or nine characters long, and the key's length
      decides which. */
  lemma MaskLength(key: string)
    ensures |MaskKey(key)| == 3 || |MaskKey(key)| == 9
    ensures |MaskKey(key)| == 9 <==> |key| > 6
  {
  }

  /** A key's middle never shows: keys that agree on their first and last
      three characters, and are both long enough to be revealed, mask
      alike, however their middles differ; short keys all mask alike. */
  lemma MaskHidesMiddle(a: string, b: string)
    requires (|a| > 6 && |b| > 6 && a[..3] == b[..3] && a[|a| - 3..] == b[|b| - 3..])
          || (|a| <= 6 && |b| <= 6)
    ensures MaskKey(a) == MaskKey(b)
  {
  }

  /** At most six characters of the key show, and a revealed key keeps
      at least one character hidden. */
  lemma MaskRevealsLittle(key: string)
    requires |key| > 6
    ensures |MaskKey(key)| - |Stars| == 6 < |key|
    ensures MaskKey(key)[..3] == key[..3] && MaskKey(key)[6..] == key[|key| - 3..]
  {
  }

  /** The log entry written when a key is saved. */
  function SavedKeyLogMessage(key: string): string {
    "OSINT Industries API key saved (" + MaskKey(key) + ")"
  }
}
