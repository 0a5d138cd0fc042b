/** The text of the notification sent to every configured channel when an
    alert is dispatched (redalert.py, `alarm_on`): a fixed Hebrew heading
    ("in the following areas:"), the alert's regions joined by ", ", a
    line break, and the alert's description. */
module Notification {
  import opened Options
  import opened Strings

  /** The heading, line break and leading space that open every body. */
  const BodyIntro: string := "באזורים הבאים: \r\n "
  const RegionSeparator: string := ", "
  const LineBreak: string := "\r\n"

  /** The notification body for an alert with these regions and this description. */
  function Body(regions: seq<string>, desc: string): string {
    BodyIntro + Join(RegionSeparator, regions) + LineBreak + desc
  }

  datatype BodyParts = BodyParts(regions: seq<string>, desc: string)

  /** Reads a body back: drop the heading, cut at the first line break,
      split the region list at every separator. */
  function ParseBody(body: string): Option<BodyParts> {
    if |body| < |BodyIntro| || body[..|BodyIntro|] != BodyIntro then None
    else
      var rest := body[|BodyIntro|..];
      match Find(LineBreak, rest, 0)
      case None => None
      case Some(i) => Some(BodyParts(Split(RegionSeparator, rest[..i]), rest[i + |LineBreak|..]))
  }

  /** A region name that can be read back unambiguously from a body: it
      holds neither the region separator nor a line break. */
  predicate PlainRegion(region: string) {
    !Contains(region, RegionSeparator) && !Contains(region, LineBreak)
  }

  lemma SeparatorsUnbordered()
    ensures Unbordered(RegionSeparator) && Unbordered(LineBreak)
  {
    assert !IsBorder(RegionSeparator, 1) by {
      assert RegionSeparator[1..][0] != RegionSeparator[..1][0];
    }
    assert !IsBorder(LineBreak, 1) by {
      assert LineBreak[1..][0] != LineBreak[..1][0];
    }
  }

  lemma SeparatorHasNoLineBreak()
    ensures !Contains(RegionSeparator, LineBreak)
  {
    assert RegionSeparator[0..2][0] != LineBreak[0];
    assert !OccursAt(LineBreak, RegionSeparator, 0);
  }

  /** Joining region names that hold no line break with ", " creates none:
      no seam between a name and the separator forms "\r\n". */
  lemma {:induction false} JoinHasNoLineBreak(regions: seq<string>)
    requires forall k :: 0 <= k < |regions| ==> !Contains(regions[k], LineBreak)
    ensures !Contains(Join(RegionSeparator, regions), LineBreak)
    decreases |regions|
  {
    if |regions| == 0 {
      assert Join(RegionSeparator, regions) == "";
    } else if |regions| > 1 {
      var x, j := regions[0], Join(RegionSeparator, regions[1..]);
      JoinHasNoLineBreak(regions[1..]);
      SeparatorHasNoLineBreak();
      if Contains(x + RegionSeparator, LineBreak) {
        ContainsPairInConcat(x, RegionSeparator, LineBreak);
      }
      if Contains(x + RegionSeparator + j, LineBreak) {
        ContainsPairInConcat(x + RegionSeparator, j, LineBreak);
      }
    }
  }

  /** The body loses nothing: for at least one region and region names
      free of ", " and "\r\n", reading the body back yields exactly the
      regions and the description that went into it, whatever the
      description holds. */
  lemma BodyRoundTrip(regions: seq<string>, desc: string)
    requires |regions| > 0
    requires forall k :: 0 <= k < |regions| ==> PlainRegion(regions[k])
    ensures ParseBody(Body(regions, desc)) == Some(BodyParts(regions, desc))
  {
    var j := Join(RegionSeparator, regions);
    var body := Body(regions, desc);
    assert body == BodyIntro + (j + LineBreak + desc);
    assert body[..|BodyIntro|] == BodyIntro;
    var rest := body[|BodyIntro|..];
    assert rest == j + LineBreak + desc;
    SeparatorsUnbordered();
    JoinHasNoLineBreak(regions);
    FindAfterPlain(LineBreak, j, desc);
    assert rest[..|j|] == j;
    assert rest[|j| + |LineBreak|..] == desc;
    SplitJoin(RegionSeparator, regions);
  }

}
