/** The display name both the gateway and the vehicle derive from a
    vehicle id such as "vehicle-001": the prefix "小车" and the second
    '-'-separated piece of the id. */
module VehicleNaming {
  import Text

  const NamePrefix: string := "小车"

  /** `f'小车{vid.split("-")[1]}'`; the index exists only when the id
      contains a '-'. */
  function DisplayName(vid: string): string
    requires '-' in vid
  {
    Text.SplitHasSecondPiece(vid, '-');
    NamePrefix + Text.Split(vid, '-')[1]
  }

  /** For an id `p-q` with no other '-', the name is the prefix and `q`. */
  lemma DisplayNameOf(p: string, q: string)
    requires '-' !in p && '-' !in q
    ensures '-' in p + "-" + q
    ensures DisplayName(p + "-" + q) == NamePrefix + q
  {
    assert (p + "-" + q)[|p|] == '-';
    Text.SplitAtFirstSeparator(p, q, '-');
    Text.SplitWithoutSeparator(q, '-');
  }

  /** Only the second '-'-separated piece is kept: further pieces are
      dropped from the name. */
  lemma DisplayNameDropsLaterPieces(p: string, q: string, rest: string)
    requires '-' !in p && '-' !in q
    ensures '-' in p + "-" + q + "-" + rest
    ensures DisplayName(p + "-" + q + "-" + rest) == NamePrefix + q
  {
    assert (p + "-" + q + "-" + rest)[|p|] == '-';
    assert p + "-" + q + "-" + rest == p + "-" + (q + "-" + rest);
    Text.SplitAtFirstSeparator(p, q + "-" + rest, '-');
    Text.SplitAtFirstSeparator(q, rest, '-');
  }
}

