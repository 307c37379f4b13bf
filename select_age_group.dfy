/**
 * The onboarding screen where the worker picks an age group
 * (`SelectAgeGroupFragment`): three mutually exclusive buttons, a submit
 * button, a loading bar and an error text, driven by the four states of the
 * registration request.
 */
module SelectAgeGroup {
  import opened Widgets
  import opened Outcomes

  datatype AgeGroup = Young | Middle | Old

  /** The registration request's progress; an error carries its throwable's message. */
  datatype SelectAgeUiState = Initial | Loading | Success | Error(message: string)

  class SelectAgeGroupScreen {
    var youngSelected: bool
    var middleSelected: bool
    var oldSelected: bool
    /** The `lateinit` age, unset until a button is clicked. */
    var currentAge: Option<AgeGroup>
    var submit: Button
    var submitVisible: bool
    var loadingVisible: bool
    var errorVisible: bool
    var errorText: string
    /** The ages handed to `updateWorkerAge`, oldest first. */
    var submittedAges: seq<AgeGroup>
    var navigatedToDashboard: bool
    var finished: bool

    function IsSelected(g: AgeGroup): (selected: bool)
      reads this
    {
      match g
      case Young => youngSelected
      case Middle => middleSelected
      case Old => oldSelected
    }

    /**
     * The screen's invariant: the submit drawable matches its clickability, and
     * a button is selected exactly when an age has been chosen, that age's.
     */
    ghost predicate Valid()
      reads this
    {
      Agrees(submit) && (submit.icon == NextEnabled || submit.icon == NextDisabled) &&
      forall g :: IsSelected(g) <==> currentAge == Some(g)
    }

    constructor ()
      ensures Valid() && currentAge == None && !submit.clickable
      ensures submittedAges == [] && !navigatedToDashboard && !finished
    {
      youngSelected, middleSelected, oldSelected := false, false, false;
      currentAge := None;
      submit := Button(false, NextDisabled);
      submitVisible := true;
      loadingVisible := false;
      errorVisible := false;
      errorText := "";
      submittedAges := [];
      navigatedToDashboard := false;
      finished := false;
    }

    /** An age button: select exactly that one, remember it, allow submitting. */
    method HandleAgeGroupClick(item: AgeGroup)
      requires Valid()
      modifies this`youngSelected, this`middleSelected, this`oldSelected, this`currentAge, this`submit
      ensures Valid()
      ensures forall g :: IsSelected(g) <==> g == item
      ensures currentAge == Some(item)
      ensures submit == Button(true, NextEnabled)
    {
      youngSelected := false;
      middleSelected := false;
      oldSelected := false;
      currentAge := Some(item);
      match item {
        case Young => youngSelected := true;
        case Middle => middleSelected := true;
        case Old => oldSelected := true;
      }
      EnableAgeGroupSubmitButton();
    }

    /** The submit button; `thrown` when `currentAge` was never set (the `lateinit` read throws). */
    method SubmitAgeGroup() returns (thrown: bool)
      modifies this`submittedAges
      ensures thrown <==> currentAge == None
      ensures submittedAges == if thrown then old(submittedAges) else old(submittedAges) + [currentAge.value]
    {
      if currentAge == None {
        thrown := true;
      } else {
        thrown := false;
        submittedAges := submittedAges + [currentAge.value];
      }
    }

    /**
     * The `selectAgeUiState` observer. Submitting is possible only after
     * success; the loading bar replaces the submit button only while loading;
     * the error text, holding the message, shows only on error.
     */
    method OnUiState(state: SelectAgeUiState)
      requires Valid()
      modifies this`errorVisible, this`errorText, this`loadingVisible, this`submitVisible, this`submit
      ensures Valid()
      ensures submit.clickable <==> state == Success
      ensures loadingVisible <==> state == Loading
      ensures submitVisible <==> state != Loading
      ensures errorVisible <==> state.Error?
      ensures errorText == if state.Error? then state.message else old(errorText)
    {
      match state
      case Error(message) => ShowErrorUi(message);
      case Initial => ShowInitialUi();
      case Loading => ShowLoadingUi();
      case Success => ShowSuccessUi();
    }

    /** The `Navigate` effect: go to the dashboard and close onboarding. */
    method OnNavigateEffect()
      modifies this`navigatedToDashboard, this`finished
      ensures navigatedToDashboard && finished
    {
      navigatedToDashboard := true;
      finished := true;
    }

    method ShowInitialUi()
      modifies this`errorVisible, this`loadingVisible, this`submitVisible, this`submit
      ensures !errorVisible && !loadingVisible && submitVisible && submit == Button(false, NextDisabled)
    {
      errorVisible := false;
      HideLoading();
      DisableAgeGroupSubmitButton();
    }

    method ShowLoadingUi()
      modifies this`errorVisible, this`loadingVisible, this`submitVisible, this`submit
      ensures !errorVisible && loadingVisible && !submitVisible && submit == Button(false, NextDisabled)
    {
      errorVisible := false;
      ShowLoading();
      DisableAgeGroupSubmitButton();
    }

    method ShowSuccessUi()
      modifies this`errorVisible, this`loadingVisible, this`submitVisible, this`submit
      ensures !errorVisible && !loadingVisible && submitVisible && submit == Button(true, NextEnabled)
    {
      errorVisible := false;
      HideLoading();
      EnableAgeGroupSubmitButton();
    }

    method ShowErrorUi(message: string)
      modifies this`errorVisible, this`errorText, this`loadingVisible, this`submitVisible, this`submit
      ensures errorVisible && errorText == message
      ensures !loadingVisible && submitVisible && submit == Button(false, NextDisabled)
    {
      errorText := message;
      errorVisible := true;
      HideLoading();
      DisableAgeGroupSubmitButton();
    }

    method DisableAgeGroupSubmitButton()
      modifies this`submit
      ensures submit == Button(false, NextDisabled)
    {
      submit := submit.(clickable := false);
      submit := submit.(icon := NextDisabled);
    }

    method EnableAgeGroupSubmitButton()
      modifies this`submit
      ensures submit == Button(true, NextEnabled)
    {
      submit := submit.(clickable := true);
      submit := submit.(icon := NextEnabled);
    }

    method HideLoading()
      modifies this`loadingVisible, this`submitVisible
      ensures !loadingVisible && submitVisible
    {
      loadingVisible := false;
      submitVisible := true;
    }

    method ShowLoading()
      modifies this`loadingVisible, this`submitVisible
      ensures loadingVisible && !submitVisible
    {
      loadingVisible := true;
      submitVisible := false;
    }
  }
}
