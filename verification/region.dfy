/** The region lookup over the item's required configuration and the three
    configuration assignments built from it (`_create_and_configure_cart`
    and the same passage of the legacy script). */
module Region {
  import opened Wrappers

  /** One element of the required-configuration answer. */
  datatype RequiredField = RequiredField(name: string, allowedValues: seq<string>)

  /** One `{"label": ..., "value": ...}` assignment (`name` is the label);
      a `None` value is sent as JSON null. */
  datatype Assignment = Assignment(name: string, value: Option<string>)

  /** The OS image every order is configured with. */
  const NoOs: string := "none_64.en"

  /** A field that names the region and offers at least one value (an empty
      list is falsy in Python and is skipped). */
  predicate OffersRegion(f: RequiredField)
  {
    f.name == "region" && |f.allowedValues| > 0
  }

  /** The source's loop: walk the fields left to right, overwriting the
      accumulator with the first allowed value of every offering field. */
  function RegionFold(fields: seq<RequiredField>, acc: Option<string>): Option<string>
  {
    if fields == [] then acc
    else
      var acc' := if OffersRegion(fields[0]) then Some(fields[0].allowedValues[0]) else acc;
      RegionFold(fields[1..], acc')
  }

  /** `region_value`, starting from `None`. */
  function RegionOf(fields: seq<RequiredField>): Option<string>
  {
    RegionFold(fields, None)
  }

  /** `i` is the last field that offers a region. */
  ghost predicate LastOffer(fields: seq<RequiredField>, i: int)
  {
    0 <= i < |fields| && OffersRegion(fields[i])
    && forall j | i < j < |fields| :: !OffersRegion(fields[j])
  }

  /** Without an offering field the accumulator comes back unchanged. */
  lemma {:induction false} FoldWithoutOffer(fields: seq<RequiredField>, acc: Option<string>)
    requires forall j | 0 <= j < |fields| :: !OffersRegion(fields[j])
    ensures RegionFold(fields, acc) == acc
    decreases |fields|
  {
    if fields != [] {
      assert forall j | 0 <= j < |fields[1..]| :: fields[1..][j] == fields[j + 1];
      FoldWithoutOffer(fields[1..], acc);
    }
  }

  /** Otherwise the last offering field decides, whatever came before. */
  lemma {:induction false} FoldTakesLastOffer(fields: seq<RequiredField>, acc: Option<string>, i: int)
    requires LastOffer(fields, i)
    ensures RegionFold(fields, acc) == Some(fields[i].allowedValues[0])
    decreases |fields|
  {
    var rest := fields[1..];
    assert forall j | 0 <= j < |rest| :: rest[j] == fields[j + 1];
    if i == 0 {
      FoldWithoutOffer(rest, Some(fields[0].allowedValues[0]));
    } else {
      assert LastOffer(rest, i - 1);
      FoldTakesLastOffer(rest, if OffersRegion(fields[0]) then Some(fields[0].allowedValues[0]) else acc, i - 1);
    }
  }

  /** The region is the first allowed value of the last "region" field with
      a non-empty list, and `None` when there is no such field. */
  lemma RegionOfSpec(fields: seq<RequiredField>)
    ensures RegionOf(fields).None? <==> forall j | 0 <= j < |fields| :: !OffersRegion(fields[j])
    ensures forall i | LastOffer(fields, i) :: RegionOf(fields) == Some(fields[i].allowedValues[0])
  {
    if forall j | 0 <= j < |fields| :: !OffersRegion(fields[j]) {
      FoldWithoutOffer(fields, None);
    } else {
      var i := LastOfferIndex(fields);
      FoldTakesLastOffer(fields, None, i);
    }
    forall i | LastOffer(fields, i)
      ensures RegionOf(fields) == Some(fields[i].allowedValues[0])
    {
      FoldTakesLastOffer(fields, None, i);
    }
  }

  /** Some field offers a region, so a last one exists. */
  lemma LastOfferIndex(fields: seq<RequiredField>) returns (i: int)
    requires exists j :: 0 <= j < |fields| && OffersRegion(fields[j])
    ensures LastOffer(fields, i)
  {
    i := |fields| - 1;
    while !OffersRegion(fields[i])
      invariant 0 <= i < |fields|
      invariant forall j | i < j < |fields| :: !OffersRegion(fields[j])
      invariant exists j :: 0 <= j <= i && OffersRegion(fields[j])
      decreases i
    {
      i := i - 1;
    }
  }

  /** The three assignments, in the order they are posted. */
  function Configurations(datacenter: string, region: Option<string>): seq<Assignment>
  {
    [ Assignment("dedicated_datacenter", Some(datacenter)),
      Assignment("dedicated_os", Some(NoOs)),
      Assignment("region", region) ]
  }
}
