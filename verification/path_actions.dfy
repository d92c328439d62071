/** The PATH commands both programs know, and their names on the wire. */
module PathActions {
  import opened Wrappers

  datatype PathAction =
    | BeginPath | SetPathFrame | SetPathCondition | PathNodeTarget | PathNodeMotion | PathNodeBlend | PathNodeSync
    | CommitPathNode | CommitPath | AbortPathUpload | ExecutePath

  function Name(a: PathAction): string {
    match a
    case BeginPath => "beginPath"
    case SetPathFrame => "setPathFrame"
    case SetPathCondition => "setPathCondition"
    case PathNodeTarget => "pathNodeTarget"
    case PathNodeMotion => "pathNodeMotion"
    case PathNodeBlend => "pathNodeBlend"
    case PathNodeSync => "pathNodeSync"
    case CommitPathNode => "commitPathNode"
    case CommitPath => "commitPath"
    case AbortPathUpload => "abortPathUpload"
    case ExecutePath => "executePath"
  }

  /** call_service's comparisons with the PATH names. */
  function Named(name: string): Option<PathAction> {
    if name == "beginPath" then Some(BeginPath)
    else if name == "setPathFrame" then Some(SetPathFrame)
    else if name == "setPathCondition" then Some(SetPathCondition)
    else if name == "pathNodeTarget" then Some(PathNodeTarget)
    else if name == "pathNodeMotion" then Some(PathNodeMotion)
    else if name == "pathNodeBlend" then Some(PathNodeBlend)
    else if name == "pathNodeSync" then Some(PathNodeSync)
    else if name == "commitPathNode" then Some(CommitPathNode)
    else if name == "commitPath" then Some(CommitPath)
    else if name == "abortPathUpload" then Some(AbortPathUpload)
    else if name == "executePath" then Some(ExecutePath)
    else None
  }

  /** The actions call_service answers before it parses parameters. */
  const UNPARSED_ACTIONS := {"Hello", "clearFlyQueue", "executeFlyQueue"}

  lemma {:induction false} NamedIsName(name: string)
    ensures Named(name).Some? ==> Name(Named(name).value) == name
  {
  }

  lemma {:induction false} FirstLetters(a: PathAction)
    ensures Name(a) != "" && Name(a)[0] in {'b', 's', 'p', 'c', 'a', 'e'}
  {
    match a
    case BeginPath =>
    case SetPathFrame =>
    case SetPathCondition =>
    case PathNodeTarget =>
    case PathNodeMotion =>
    case PathNodeBlend =>
    case PathNodeSync =>
    case CommitPathNode =>
    case CommitPath =>
    case AbortPathUpload =>
    case ExecutePath =>
  }

  /** Names are distinct, short, and free of the delimiter. */
  lemma {:induction false} NamesAreDistinct(a: PathAction)
    ensures Named(Name(a)) == Some(a)
    ensures ':' !in Name(a) && |Name(a)| <= 25 && Name(a) !in UNPARSED_ACTIONS
  {
    match a
    case BeginPath =>
    case SetPathFrame =>
    case SetPathCondition =>
    case PathNodeTarget =>
    case PathNodeMotion =>
    case PathNodeBlend =>
    case PathNodeSync =>
    case CommitPathNode =>
    case CommitPath =>
    case AbortPathUpload =>
    case ExecutePath =>
  }
}
