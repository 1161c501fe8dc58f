/** `ProductionsReportWizard`: a start view with two dates and two buttons,
    a report action state, and the terminal state. */
module ReportWizard {

  datatype State = Start | Generate | End

  /** The buttons of the start view. */
  datatype Button = Cancel | GenerateButton

  /** The two date fields of the start view, as day ordinals. */
  datatype StartView = StartView(startDate: int, endDate: int)

  /** Where each button of the start view leads. */
  function ButtonTarget(b: Button): State {
    match b
    case Cancel => End
    case GenerateButton => Generate
  }

  /** `do_generate`: the report action, unchanged, and the report parameters
      taken from the start view. */
  function DoGenerate<A>(action: A, view: StartView): (r: (A, map<string, int>))
    ensures r.0 == action
    ensures r.1.Keys == {"start_date", "end_date"}
    ensures r.1["start_date"] == view.startDate && r.1["end_date"] == view.endDate
  {
    (action, map["start_date" := view.startDate, "end_date" := view.endDate])
  }

  function TransitionGenerate(): State {
    End
  }

  /** One run of the wizard: the state it stops in, and the report action
      with its parameters when one was started. */
  datatype Run<A> = Run(final: State, launched: seq<(A, map<string, int>)>)

  function RunWizard<A>(view: StartView, pressed: Button, action: A): (r: Run<A>)
    ensures r.final == End
    ensures |r.launched| == (if pressed == GenerateButton then 1 else 0)
    ensures forall l :: l in r.launched ==>
      l.0 == action && l.1.Keys == {"start_date", "end_date"}
      && l.1["start_date"] == view.startDate && l.1["end_date"] == view.endDate
  {
    if ButtonTarget(pressed) == Generate then
      Run(TransitionGenerate(), [DoGenerate(action, view)])
    else
      Run(ButtonTarget(pressed), [])
  }
}
