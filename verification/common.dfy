/** Types shared by the key decoder and the playback model of kew's control loop. */
module Common {

  datatype Option<+T> = None | Some(value: T)

  /** One byte of terminal input or of a configured key binding (a C `char`, read unsigned). */
  newtype byte = b: int | 0 <= b < 256

  /** The bytes of a C string before its terminating NUL: no NUL inside. */
  predicate IsCString(s: seq<byte>)
  {
    forall i :: 0 <= i < |s| ==> s[i] != 0
  }

  /** `s[0]` of a C string: the terminator when the string is empty. */
  function FirstByte(s: seq<byte>): (b: byte)
    ensures s != [] ==> b == s[0]
    ensures s == [] ==> b == 0
  {
    if s == [] then 0 else s[0]
  }

  const DigitZero: byte := 48
  const DigitNine: byte := 57

  /** `isdigit` in the C locale. */
  predicate IsDigit(b: byte)
  {
    DigitZero <= b <= DigitNine
  }

  /** The views of the player (`appState.currentView`). */
  datatype View = PlaylistView | LibraryView | TrackView | SearchView | KeyBindingsView

  /** The event tags that kew.c produces or dispatches on (`enum EventType`). */
  datatype EventType =
    | NONE
    | PLAY_PAUSE
    | VOLUME_UP
    | VOLUME_DOWN
    | NEXT
    | PREV
    | QUIT
    | TOGGLEREPEAT
    | TOGGLEVISUALIZER
    | TOGGLEBLOCKS
    | SHUFFLE
    | TOGGLEPROFILECOLORS
    | SCROLLNEXT
    | SCROLLPREV
    | SEEKBACK
    | SEEKFORWARD
    | ADDTOMAINPLAYLIST
    | EXPORTPLAYLIST
    | UPDATELIBRARY
    | SHOWKEYBINDINGS
    | SHOWPLAYLIST
    | SHOWSEARCH
    | SHOWLIBRARY
    | SHOWTRACK
    | NEXTPAGE
    | PREVPAGE
    | REMOVE
    | TABNEXT
    | SEARCH
    | GOTOSONG
    | GOTOBEGINNINGOFPLAYLIST
    | GOTOENDOFPLAYLIST
}
