/**
 * The change detector: a remote file and a local file are "equal" (no upload
 * needed) when their sizes match and the remote is not older than the local
 * file, both times cut down to whole seconds.
 */
module EqualUtils {
  import opened Wrappers
  import opened RemoteStore

  const MILLIS_PER_SECOND := 1000

  /** Java's `long` division by 1000, which truncates toward zero (Dafny's `/` does not for negatives). */
  function ToSeconds(milliseconds: int): (s: int)
    ensures milliseconds >= 0 ==> s * MILLIS_PER_SECOND <= milliseconds < s * MILLIS_PER_SECOND + MILLIS_PER_SECOND
    ensures milliseconds < 0 ==> s * MILLIS_PER_SECOND - MILLIS_PER_SECOND < milliseconds <= s * MILLIS_PER_SECOND
  {
    if milliseconds >= 0 then milliseconds / MILLIS_PER_SECOND
    else -((-milliseconds) / MILLIS_PER_SECOND)
  }

  /** `file` is the remote metadata (possibly null), `local` what the local path reports (null path: None). */
  function Equals(file: Option<FileMetadata>, local: Option<LocalStat>): (r: bool)
    ensures file.None? || local.None? ==> !r
    ensures local.Some? && !local.value.present ==> !r
    ensures r ==> file.Some? && local.Some? && file.value.size == local.value.length
  {
    match (file, local)
    case (Some(f), Some(l)) =>
      l.present && f.size == l.length && ToSeconds(f.clientModified) >= ToSeconds(l.lastModified)
    case _ => false
  }

  /** An upload is needed: nothing to compare with, sizes differ, or the remote is an older second. */
  function NotEquals(file: Option<FileMetadata>, local: Option<LocalStat>): (r: bool)
    ensures r <==> || file.None? || local.None? || !local.value.present
                   || file.value.size != local.value.length
                   || ToSeconds(file.value.clientModified) < ToSeconds(local.value.lastModified)
  {
    !Equals(file, local)
  }

  /** Truncation to seconds never reverses the order of two times. */
  lemma ToSecondsMonotone(a: int, b: int)
    requires a <= b
    ensures ToSeconds(a) <= ToSeconds(b)
  {
  }

  /** With equal sizes, a remote file at least as recent as the local one is equal to it. */
  lemma NotOlderIsEqual(f: FileMetadata, l: LocalStat)
    requires l.present && f.size == l.length
    requires f.clientModified >= l.lastModified
    ensures Equals(Some(f), Some(l)) && !NotEquals(Some(f), Some(l))
  {
    ToSecondsMonotone(l.lastModified, f.clientModified);
  }

  /** Two times inside the same whole second compare as equal, whichever is larger. */
  lemma SameSecondIsEqual(f: FileMetadata, l: LocalStat, s: nat)
    requires l.present && f.size == l.length
    requires s * MILLIS_PER_SECOND <= f.clientModified < s * MILLIS_PER_SECOND + MILLIS_PER_SECOND
    requires s * MILLIS_PER_SECOND <= l.lastModified < s * MILLIS_PER_SECOND + MILLIS_PER_SECOND
    ensures Equals(Some(f), Some(l))
  {
    assert ToSeconds(f.clientModified) == s by {
      var t := ToSeconds(f.clientModified);
      assert t * MILLIS_PER_SECOND <= f.clientModified < t * MILLIS_PER_SECOND + MILLIS_PER_SECOND;
    }
    assert ToSeconds(l.lastModified) == s by {
      var t := ToSeconds(l.lastModified);
      assert t * MILLIS_PER_SECOND <= l.lastModified < t * MILLIS_PER_SECOND + MILLIS_PER_SECOND;
    }
  }

  /**
   * With equal sizes, a remote exactly one second older than the local file
   * is not equal. The window (0, 1000) of local times is excluded: there the
   * truncation toward zero maps both times to second 0.
   */
  lemma OneSecondOlderIsNotEqual(f: FileMetadata, l: LocalStat)
    requires l.present && f.size == l.length
    requires f.clientModified == l.lastModified - MILLIS_PER_SECOND
    requires l.lastModified <= 0 || l.lastModified >= MILLIS_PER_SECOND
    ensures !Equals(Some(f), Some(l)) && NotEquals(Some(f), Some(l))
  {
    var sr, sl := ToSeconds(f.clientModified), ToSeconds(l.lastModified);
    if l.lastModified >= MILLIS_PER_SECOND {
      assert sl * MILLIS_PER_SECOND <= l.lastModified < sl * MILLIS_PER_SECOND + MILLIS_PER_SECOND;
      assert sr * MILLIS_PER_SECOND <= f.clientModified < sr * MILLIS_PER_SECOND + MILLIS_PER_SECOND;
      assert sr == sl - 1;
    } else {
      assert sl * MILLIS_PER_SECOND - MILLIS_PER_SECOND < l.lastModified <= sl * MILLIS_PER_SECOND;
      assert sr * MILLIS_PER_SECOND - MILLIS_PER_SECOND < f.clientModified <= sr * MILLIS_PER_SECOND;
      assert sr < sl;
    }
  }

  /**
   * A reference definition for non-negative times: with equal sizes, the
   * files are equal exactly when the remote time is no earlier than the
   * start of the second the local time falls in.
   */
  lemma EqualsIffNotBeforeLocalSecond(f: FileMetadata, l: LocalStat)
    requires l.present && f.size == l.length
    requires f.clientModified >= 0 && l.lastModified >= 0
    ensures Equals(Some(f), Some(l)) <==> f.clientModified >= l.lastModified - l.lastModified % MILLIS_PER_SECOND
  {
    var sr, sl := ToSeconds(f.clientModified), ToSeconds(l.lastModified);
    assert l.lastModified - l.lastModified % MILLIS_PER_SECOND == sl * MILLIS_PER_SECOND;
    assert sr * MILLIS_PER_SECOND <= f.clientModified < sr * MILLIS_PER_SECOND + MILLIS_PER_SECOND;
    if sr >= sl {
      assert sr * MILLIS_PER_SECOND >= sl * MILLIS_PER_SECOND;
    } else {
      assert sr * MILLIS_PER_SECOND + MILLIS_PER_SECOND <= sl * MILLIS_PER_SECOND;
    }
  }
}
