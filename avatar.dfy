/** The avatar palette shared by the doctor and prescription cards. */
module Avatar {
  import opened Js

  const Palette: seq<string> := ["#EF4444", "#F59E0B", "#10B981", "#3B82F6", "#8B5CF6"]

  /** `COLORS[i]`: `undefined` outside the palette. */
  function Colour(i: int): (r: Option<string>)
    ensures r.Some? <==> 0 <= i < 5
  {
    if 0 <= i < |Palette| then Some(Palette[i]) else None
  }
}
