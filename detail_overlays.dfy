/**
 * The channel and playlist detail views that the tab navigation lays over its
 * tab strip, and their z-index against the full-screen player.
 *
 * The view attaches the playlist overlay first and the channel overlay second;
 * each is present only while the navigation model presents it, and each sinks
 * to z-index -1 while the player is presented, otherwise channel sits at 2 and
 * playlist at 1.
 */
module DetailOverlays {
  import opened Options

  datatype OverlayKind = ChannelOverlay | PlaylistOverlay

  /** A presented overlay and the z-index the view gives it. */
  datatype Overlay = Overlay(kind: OverlayKind, zIndex: int)

  /**
   * `navigation.presentingChannel`, `navigation.presentingPlaylist` and
   * `player.presentingPlayer`.
   */
  datatype OverlayInputs = OverlayInputs(
    presentingChannel: bool,
    presentingPlaylist: bool,
    presentingPlayer: bool)

  /** The z-index of a view that sets none. */
  const MainContentZIndex: int := 0

  /**
   * `player.presentingPlayer ? -1 : 2` for the channel overlay and
   * `player.presentingPlayer ? -1 : 1` for the playlist overlay. The contract:
   * an overlay's z-index is lower than the default 0 of a view that sets none
   * exactly while the player is presented, and higher otherwise; it is never 0.
   */
  function ZIndex(kind: OverlayKind, presentingPlayer: bool): (z: int)
    ensures z < MainContentZIndex <==> presentingPlayer
    ensures z != MainContentZIndex
  {
    if presentingPlayer then -1
    else match kind
      case ChannelOverlay => 2
      case PlaylistOverlay => 1
  }

  /** The `channelView` builder: the channel overlay while a channel is presented. */
  function ChannelView(n: OverlayInputs): (r: Option<Overlay>)
    ensures r.Some? <==> n.presentingChannel
    ensures r.Some? ==> r.value.kind == ChannelOverlay && r.value.zIndex == ZIndex(ChannelOverlay, n.presentingPlayer)
  {
    if n.presentingChannel then Some(Overlay(ChannelOverlay, ZIndex(ChannelOverlay, n.presentingPlayer))) else None
  }

  /** The `playlistView` builder: the playlist overlay while a playlist is presented. */
  function PlaylistView(n: OverlayInputs): (r: Option<Overlay>)
    ensures r.Some? <==> n.presentingPlaylist
    ensures r.Some? ==> r.value.kind == PlaylistOverlay && r.value.zIndex == ZIndex(PlaylistOverlay, n.presentingPlayer)
  {
    if n.presentingPlaylist then Some(Overlay(PlaylistOverlay, ZIndex(PlaylistOverlay, n.presentingPlayer))) else None
  }

  /** No element, or the one an optional holds. */
  function AsSeq(o: Option<Overlay>): seq<Overlay>
  {
    match o
    case None => []
    case Some(v) => [v]
  }

  /**
   * The overlays in the order the view attaches them, playlist then channel.
   * The contract: each kind appears at most once, exactly when it is
   * presented, and when both appear the playlist overlay comes first.
   */
  function Overlays(n: OverlayInputs): (r: seq<Overlay>)
    ensures |r| <= 2
    ensures (exists o :: o in r && o.kind == ChannelOverlay) <==> n.presentingChannel
    ensures (exists o :: o in r && o.kind == PlaylistOverlay) <==> n.presentingPlaylist
    ensures forall i, j :: 0 <= i < j < |r| ==> r[i].kind != r[j].kind
    ensures |r| == 2 ==> r[0].kind == PlaylistOverlay && r[1].kind == ChannelOverlay
  {
    AsSeq(PlaylistView(n)) + AsSeq(ChannelView(n))
  }

  /** While the player is presented every overlay sits at -1, lower than the default 0. */
  lemma OverlaysSinkUnderPlayer(n: OverlayInputs)
    ensures n.presentingPlayer ==> forall o :: o in Overlays(n) ==> o.zIndex == -1
    ensures (forall o :: o in Overlays(n) ==> o.zIndex < MainContentZIndex) <==>
      (n.presentingPlayer || Overlays(n) == [])
  {
  }

  /**
   * Otherwise the channel overlay sits at 2 and the playlist overlay at 1, so
   * when both are shown the channel overlay is strictly above the playlist one.
   */
  lemma ChannelAbovePlaylist(n: OverlayInputs)
    requires !n.presentingPlayer
    ensures forall o :: o in Overlays(n) ==> o.zIndex == (if o.kind == ChannelOverlay then 2 else 1)
    ensures forall c, p ::
      (c in Overlays(n) && p in Overlays(n) && c.kind == ChannelOverlay && p.kind == PlaylistOverlay)
      ==> c.zIndex > p.zIndex
  {
  }

  /** Both presented with the player up: both overlays are shown, at the same depth -1. */
  lemma BothPresentedUnderPlayer(n: OverlayInputs)
    requires n.presentingChannel && n.presentingPlaylist && n.presentingPlayer
    ensures Overlays(n) == [Overlay(PlaylistOverlay, -1), Overlay(ChannelOverlay, -1)]
  {
  }
}
