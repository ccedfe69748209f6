/**
 The options menu of the TiltMazes activity: four item ids, three of which
 post a message to the game engine and one of which shows the About dialog.
 */
module Menu {

  const MenuRestart: int := 1
  const MenuMapPrev: int := 2
  const MenuMapNext: int := 3
  const MenuAbout: int := 4

  /** The engine messages the menu can post (`MSG_RESTART`, `MSG_MAP_PREVIOUS`,
      `MSG_MAP_NEXT`). */
  datatype Message = Restart | MapPrevious | MapNext

  /** What selecting a menu item does. */
  datatype MenuAction = Post(msg: Message) | ShowAbout | Ignore

  /** The action of the menu item with the given id; unknown ids are ignored. */
  function ActionFor(id: int): (a: MenuAction)
    ensures a.Ignore? <==> !(MenuRestart <= id <= MenuAbout)
    ensures a.ShowAbout? <==> id == MenuAbout
  {
    if id == MenuRestart then Post(Restart)
    else if id == MenuMapPrev then Post(MapPrevious)
    else if id == MenuMapNext then Post(MapNext)
    else if id == MenuAbout then ShowAbout
    else Ignore
  }

  /** `onOptionsItemSelected` reports an item as handled exactly when it has an action. */
  function Handled(id: int): (b: bool)
    ensures b <==> id in {MenuRestart, MenuMapPrev, MenuMapNext, MenuAbout}
  {
    !ActionFor(id).Ignore?
  }

  /** The menu item that posts a given message. */
  function IdFor(m: Message): (id: int)
    ensures MenuRestart <= id <= MenuMapNext
  {
    match m
    case Restart => MenuRestart
    case MapPrevious => MenuMapPrev
    case MapNext => MenuMapNext
  }

  /** Each message is posted by exactly one menu item, the one `IdFor` names. */
  lemma MessageRoundTrip(m: Message, id: int)
    ensures ActionFor(IdFor(m)) == Post(m)
    ensures ActionFor(id) == Post(m) <==> id == IdFor(m)
  {
  }
}
