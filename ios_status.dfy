/** The two `toString` extensions of the iOS plugin: the names it reports for the player's
    playback state and for MusicKit's authorization status. */
module IOSStatus {
  import opened Wrappers

  /** `MPMusicPlaybackState`; `UnknownState` stands for any case a later OS adds. */
  datatype PlaybackState =
    | Stopped | Playing | Paused | Interrupted | SeekingForward | SeekingBackward | UnknownState

  /** `MPMusicPlaybackState.toString()`: a total map, one name per case. */
  function PlaybackStateName(s: PlaybackState): (name: string)
    ensures name == "playing" <==> s == Playing
    ensures name == "unknown" <==> s == UnknownState
  {
    match s
    case Stopped => "stopped"
    case Playing => "playing"
    case Paused => "paused"
    case Interrupted => "interrupted"
    case SeekingForward => "seekingForward"
    case SeekingBackward => "seekingBackward"
    case UnknownState => "unknown"
  }

  /** A left inverse of `PlaybackStateName`, used to show that no two states share a name. */
  function ParsePlaybackState(name: string): (s: Option<PlaybackState>)
    ensures s.Some? ==> PlaybackStateName(s.value) == name
  {
    if name == "stopped" then Some(Stopped)
    else if name == "playing" then Some(Playing)
    else if name == "paused" then Some(Paused)
    else if name == "interrupted" then Some(Interrupted)
    else if name == "seekingForward" then Some(SeekingForward)
    else if name == "seekingBackward" then Some(SeekingBackward)
    else if name == "unknown" then Some(UnknownState)
    else None
  }

  /** Every reported playback state can be read back: no two states share a name. */
  lemma PlaybackStateNameRoundTrip(s: PlaybackState)
    ensures ParsePlaybackState(PlaybackStateName(s)) == Some(s)
  {
  }

  /** `MusicAuthorization.Status`; `UnknownStatus` stands for any case a later OS adds. */
  datatype AuthorizationStatus = NotDetermined | Denied | Restricted | Authorized | UnknownStatus

  /** `MusicAuthorization.Status.toString()`: a total map, one name per case. */
  function AuthorizationStatusName(s: AuthorizationStatus): (name: string)
    ensures name == "authorized" <==> s == Authorized
  {
    match s
    case NotDetermined => "notDetermined"
    case Denied => "denied"
    case Restricted => "restricted"
    case Authorized => "authorized"
    case UnknownStatus => "unknown"
  }

  /** A left inverse of `AuthorizationStatusName`, used to show that no two statuses share a
      name. */
  function ParseAuthorizationStatus(name: string): (s: Option<AuthorizationStatus>)
    ensures s.Some? ==> AuthorizationStatusName(s.value) == name
  {
    if name == "notDetermined" then Some(NotDetermined)
    else if name == "denied" then Some(Denied)
    else if name == "restricted" then Some(Restricted)
    else if name == "authorized" then Some(Authorized)
    else if name == "unknown" then Some(UnknownStatus)
    else None
  }

  /** Every reported authorization status can be read back: no two statuses share a name. */
  lemma AuthorizationStatusNameRoundTrip(s: AuthorizationStatus)
    ensures ParseAuthorizationStatus(AuthorizationStatusName(s)) == Some(s)
  {
  }
}
