/**
 Device-id normalisation: a composite id `<physical>[.L<logical>]` is cut
 back to its physical part before it is used in a topic. The first `.L`
 wins, so a physical id that itself contains `.L` is cut short too.
 */
module DeviceIds {
  import opened Strings

  const LogicalMarker: string := ".L"

  /** The physical part of a device id: everything before the first `.L`, or the whole id. */
  function RemoveLogicalSuffix(deviceId: string): (r: string)
    ensures !Contains(deviceId, LogicalMarker) ==> r == deviceId
    ensures Contains(deviceId, LogicalMarker) ==> OccursAt(deviceId, LogicalMarker, |r|)
    ensures r <= deviceId
    ensures !Contains(r, LogicalMarker)
  {
    var position := IndexOf(deviceId, LogicalMarker);
    if position < 0 then deviceId
    else
      var r := deviceId[..position];
      forall j | 0 <= j <= |r|
        ensures !OccursAt(r, LogicalMarker, j)
      {
        if OccursAt(r, LogicalMarker, j) {
          assert OccursAt(deviceId, LogicalMarker, j);
        }
      }
      r
  }

  /** Stripping an already stripped id changes nothing. */
  lemma RemoveLogicalSuffixIdempotent(deviceId: string)
    ensures RemoveLogicalSuffix(RemoveLogicalSuffix(deviceId)) == RemoveLogicalSuffix(deviceId)
  {
  }

  /**
   An independent characterisation: `p` is the stripped id exactly when `p`
   is a prefix of the id without `.L`, and the rest of the id is empty or
   starts with `.L`.
   */
  predicate PhysicalPart(deviceId: string, p: string) {
    && p <= deviceId
    && !Contains(p, LogicalMarker)
    && (p == deviceId || LogicalMarker <= deviceId[|p|..])
  }

  lemma RemoveLogicalSuffixCharacterised(deviceId: string, p: string)
    ensures PhysicalPart(deviceId, p) <==> p == RemoveLogicalSuffix(deviceId)
  {
    var r := RemoveLogicalSuffix(deviceId);
    if r != deviceId {
      assert deviceId[|r|..|r| + 2] == LogicalMarker;
    }
    if PhysicalPart(deviceId, p) && p != deviceId {
      assert OccursAt(deviceId, LogicalMarker, |p|);
      forall j | 0 <= j < |p|
        ensures !OccursAt(deviceId, LogicalMarker, j)
      {
        if j + 2 <= |p| {
          assert deviceId[j..j + 2] == p[j..j + 2];
          assert !OccursAt(p, LogicalMarker, j);
        } else {
          assert deviceId[|p|..][0] == deviceId[|p|] == '.';
          assert deviceId[j..j + 2][1] == deviceId[|p|];
        }
      }
      assert |r| == |p|;
    }
  }

  /** A string without any `.` has no logical marker. */
  lemma NoMarker(s: string)
    requires '.' !in s
    ensures !Contains(s, LogicalMarker)
  {
    forall i | 0 <= i < |s|
      ensures !OccursAt(s, LogicalMarker, i)
    {
      if i + 2 <= |s| {
        assert s[i..i + 2][0] == s[i];
      }
    }
  }

  /** Examples: plain, single-suffix and double-suffix ids. */
  lemma RemoveLogicalSuffixExamples()
    ensures RemoveLogicalSuffix("dev1") == "dev1"
    ensures RemoveLogicalSuffix("dev1.L2") == "dev1"
    ensures RemoveLogicalSuffix("dev1.L2.L3") == "dev1"
    ensures RemoveLogicalSuffix("therm7.L1") == "therm7"
  {
    NoMarker("dev1");
    NoMarker("therm7");
    RemoveLogicalSuffixCharacterised("dev1", "dev1");
    RemoveLogicalSuffixCharacterised("dev1.L2", "dev1");
    RemoveLogicalSuffixCharacterised("dev1.L2.L3", "dev1");
    RemoveLogicalSuffixCharacterised("therm7.L1", "therm7");
  }
}
