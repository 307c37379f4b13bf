/**
 * The task dashboard (`DashboardActivity`): a list of assigned tasks with a
 * sync progress bar, and the dispatch from a tapped task to the activity of
 * its scenario.
 */
module Dashboard {
  import opened Outcomes

  /** A task in the list: its identifier and the name of its scenario. */
  datatype TaskInfo = TaskInfo(taskID: string, scenarioName: string)

  /** The scenario activities the dashboard can start. */
  datatype ScenarioActivity = StorySpeechMain | SpeechDataMain | SpeechVerificationMain

  /** An intent for a scenario activity with the task id as its `taskID` extra. */
  datatype Intent = Intent(activity: ScenarioActivity, taskID: string)

  datatype DashboardUiState = Loading | Success(data: seq<TaskInfo>) | Error(message: string)

  datatype ViewModelCall = GetAllTasks | SyncWithServer

  const UnimplementedScenario := "Unimplemented scenario"

  /** The scenario names that have an activity. */
  predicate IsImplemented(name: string) {
    name in {"story-speech", "speech-data", "speech-verification"}
  }

  /** The `when` over scenario names; any other name throws "Unimplemented scenario". */
  function ScenarioActivityFor(name: string): (r: Result<ScenarioActivity, string>)
    ensures r.Err? <==> !IsImplemented(name)
    ensures r.Err? ==> r.error == UnimplementedScenario
  {
    match name
    case "story-speech" => Ok(StorySpeechMain)
    case "speech-data" => Ok(SpeechDataMain)
    case "speech-verification" => Ok(SpeechVerificationMain)
    case _ => Err(UnimplementedScenario)
  }

  /** The three implemented names lead to three different activities. */
  lemma ScenarioActivitiesDistinct(m: string, n: string)
    requires IsImplemented(m) && IsImplemented(n) && m != n
    ensures ScenarioActivityFor(m).value != ScenarioActivityFor(n).value
  {
  }

  /** The intent `onDashboardItemClick` builds, or the exception it throws. */
  function ItemIntent(task: TaskInfo): (r: Result<Intent, string>)
    ensures r.Err? <==> !IsImplemented(task.scenarioName)
    ensures r.Err? ==> r.error == UnimplementedScenario
    ensures r.Ok? ==> r.value.taskID == task.taskID
    ensures r.Ok? ==> ScenarioActivityFor(task.scenarioName) == Ok(r.value.activity)
  {
    match ScenarioActivityFor(task.scenarioName)
    case Ok(activity) => Ok(Intent(activity, task.taskID))
    case Err(e) => Err(e)
  }

  class DashboardScreen {
    var syncProgressVisible: bool
    /** The adapter's task list. */
    var taskList: seq<TaskInfo>
    /** The activities started, oldest first. */
    var started: seq<Intent>
    var calls: seq<ViewModelCall>

    /** `onCreate`: an empty list, then ask for every task. */
    constructor ()
      ensures taskList == [] && started == [] && calls == [GetAllTasks]
    {
      syncProgressVisible := false;
      taskList := [];
      started := [];
      calls := [GetAllTasks];
    }

    method SyncClick()
      modifies this`calls
      ensures calls == old(calls) + [SyncWithServer]
    {
      calls := calls + [SyncWithServer];
    }

    /**
     * The `dashboardUiState` observer: the progress bar shows exactly while
     * loading; success also replaces the list by the emitted tasks.
     */
    method OnUiState(state: DashboardUiState)
      modifies this`syncProgressVisible, this`taskList
      ensures syncProgressVisible <==> state == Loading
      ensures taskList == if state.Success? then state.data else old(taskList)
    {
      match state
      case Success(data) => ShowSuccessUi(data);
      case Error(message) => ShowErrorUi();
      case Loading => ShowLoadingUi();
    }

    method ShowSuccessUi(taskInfoList: seq<TaskInfo>)
      modifies this`syncProgressVisible, this`taskList
      ensures !syncProgressVisible && taskList == taskInfoList
    {
      HideLoading();
      taskList := taskInfoList;
    }

    method ShowErrorUi()
      modifies this`syncProgressVisible
      ensures !syncProgressVisible
    {
      HideLoading();
    }

    method ShowLoadingUi()
      modifies this`syncProgressVisible
      ensures syncProgressVisible
    {
      ShowLoading();
    }

    method ShowLoading()
      modifies this`syncProgressVisible
      ensures syncProgressVisible
    {
      syncProgressVisible := true;
    }

    method HideLoading()
      modifies this`syncProgressVisible
      ensures !syncProgressVisible
    {
      syncProgressVisible := false;
    }

    /**
     * A tapped task: start its scenario's activity with the task's id, or
     * throw "Unimplemented scenario" (returned as `Err`) and start nothing.
     */
    method OnDashboardItemClick(task: TaskInfo) returns (r: Result<Intent, string>)
      modifies this`started
      ensures r == ItemIntent(task)
      ensures started == if r.Ok? then old(started) + [r.value] else old(started)
    {
      var activity := ScenarioActivityFor(task.scenarioName);
      if activity.Err? {
        return Err(activity.error);
      }
      var nextIntent := Intent(activity.value, task.taskID);
      started := started + [nextIntent];
      return Ok(nextIntent);
    }
  }
}
