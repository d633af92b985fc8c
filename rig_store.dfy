/**
 * The rig store: the stations, which one is selected, the alerts, the maintenance tasks and
 * loading and error flags. Each action is a method that updates the store's fields; marking
 * alerts read and setting a task's status are stated on pure functions over the lists.
 */
module RigStore {
  import opened Wrappers
  import opened RigTypes
  import opened RigStationData

  /** `stations[0]?.id || null`: absent when there are no stations or the first id is empty. */
  function FirstStationId(stations: seq<RigStation>): (r: Option<string>)
    ensures r.Some? <==> |stations| > 0 && stations[0].id != ""
    ensures r.Some? ==> r.value == stations[0].id
  {
    if |stations| > 0 && stations[0].id != "" then Some(stations[0].id) else None
  }

  /**
   * `markAlertAsRead`: every alert with the id becomes read; nothing else about any alert
   * changes, and an alert that was read stays read.
   */
  function MarkRead(alerts: seq<AlertNotification>, id: string): (r: seq<AlertNotification>)
    ensures |r| == |alerts|
    ensures forall i :: 0 <= i < |alerts| ==>
              r[i] == alerts[i].(read := r[i].read) && r[i].read == (alerts[i].read || alerts[i].id == id)
  {
    if |alerts| == 0 then []
    else
      var head := if alerts[0].id == id then alerts[0].(read := true) else alerts[0];
      [head] + MarkRead(alerts[1..], id)
  }

  /** The number of unread alerts (the badge count of the alerts screen). */
  function UnreadCount(alerts: seq<AlertNotification>): nat {
    if |alerts| == 0 then 0 else (if alerts[0].read then 0 else 1) + UnreadCount(alerts[1..])
  }

  /** The number of unread alerts with the given id. */
  function UnreadWithId(alerts: seq<AlertNotification>, id: string): nat {
    if |alerts| == 0 then 0
    else (if !alerts[0].read && alerts[0].id == id then 1 else 0) + UnreadWithId(alerts[1..], id)
  }

  /** Marking an alert read lowers the unread count by exactly the unread alerts with that id. */
  lemma {:induction false} MarkReadLowersUnread(alerts: seq<AlertNotification>, id: string)
    ensures UnreadWithId(alerts, id) <= UnreadCount(alerts)
    ensures UnreadCount(MarkRead(alerts, id)) == UnreadCount(alerts) - UnreadWithId(alerts, id)
  {
    if |alerts| > 0 {
      MarkReadLowersUnread(alerts[1..], id);
      assert MarkRead(alerts, id)[1..] == MarkRead(alerts[1..], id);
    }
  }

  /** Marking the same alert twice is the same as marking it once. */
  lemma MarkReadIdempotent(alerts: seq<AlertNotification>, id: string)
    ensures MarkRead(MarkRead(alerts, id), id) == MarkRead(alerts, id)
  {
  }

  /** The order in which two alerts are marked does not matter. */
  lemma MarkReadCommutes(alerts: seq<AlertNotification>, x: string, y: string)
    ensures MarkRead(MarkRead(alerts, x), y) == MarkRead(MarkRead(alerts, y), x)
  {
  }

  /** An id no alert has changes nothing. */
  lemma MarkReadUnknownId(alerts: seq<AlertNotification>, id: string)
    requires forall i :: 0 <= i < |alerts| ==> alerts[i].id != id
    ensures MarkRead(alerts, id) == alerts
  {
  }

  /** Two alerts, one unread with id "a1": marking "a1" leaves none unread. */
  lemma MarkReadExample()
    ensures var a1 := AlertNotification("a1", "Pressure", "High pressure", AlertType.Critical, 0, false, None);
      var a2 := AlertNotification("a2", "Service", "Pump serviced", Info, 0, true, Some("pump"));
      && UnreadCount([a1, a2]) == 1
      && MarkRead([a1, a2], "a1") == [a1.(read := true), a2]
      && UnreadCount(MarkRead([a1, a2], "a1")) == 0
  {
    var a1 := AlertNotification("a1", "Pressure", "High pressure", AlertType.Critical, 0, false, None);
    var a2 := AlertNotification("a2", "Service", "Pump serviced", Info, 0, true, Some("pump"));
    assert [a1, a2][1..] == [a2] && [a2][1..] == [];
    assert UnreadCount([a2]) == 0;
    var marked := MarkRead([a1, a2], "a1");
    assert marked == [a1.(read := true), a2];
    assert marked[1..] == [a2];
  }

  /**
   * `updateMaintenanceTaskStatus`: every task with the id gets the new status; nothing else
   * about any task changes.
   */
  function SetTaskStatus(tasks: seq<MaintenanceTask>, id: string, status: TaskStatus): (r: seq<MaintenanceTask>)
    ensures |r| == |tasks|
    ensures forall i :: 0 <= i < |tasks| ==>
              r[i] == tasks[i].(status := r[i].status)
              && r[i].status == (if tasks[i].id == id then status else tasks[i].status)
  {
    if |tasks| == 0 then []
    else
      var head := if tasks[0].id == id then tasks[0].(status := status) else tasks[0];
      [head] + SetTaskStatus(tasks[1..], id, status)
  }

  /** Setting a task's status twice keeps only the second status. */
  lemma SetTaskStatusLastWins(tasks: seq<MaintenanceTask>, id: string, first: TaskStatus, second: TaskStatus)
    ensures SetTaskStatus(SetTaskStatus(tasks, id, first), id, second) == SetTaskStatus(tasks, id, second)
  {
  }

  /** Setting a task to the status it already has changes nothing. */
  lemma SetTaskStatusSame(tasks: seq<MaintenanceTask>, id: string, status: TaskStatus)
    requires forall i :: 0 <= i < |tasks| && tasks[i].id == id ==> tasks[i].status == status
    ensures SetTaskStatus(tasks, id, status) == tasks
  {
  }

  /** Updates of two different tasks do not interfere. */
  lemma SetTaskStatusCommutes(tasks: seq<MaintenanceTask>, x: string, sx: TaskStatus, y: string, sy: TaskStatus)
    requires x != y
    ensures SetTaskStatus(SetTaskStatus(tasks, x, sx), y, sy) == SetTaskStatus(SetTaskStatus(tasks, y, sy), x, sx)
  {
  }

  class Store {
    /** The data a fetch loads (the module's mock stations, alerts and tasks). */
    const seedStations: seq<RigStation>
    const seedAlerts: seq<AlertNotification>
    const seedTasks: seq<MaintenanceTask>

    var stations: seq<RigStation>
    var selectedStationId: Option<string>
    var alerts: seq<AlertNotification>
    var maintenanceTasks: seq<MaintenanceTask>
    var isLoading: bool
    var error: Option<string>

    constructor(stationSeed: seq<RigStation>, alertSeed: seq<AlertNotification>, taskSeed: seq<MaintenanceTask>)
      ensures seedStations == stationSeed && seedAlerts == alertSeed && seedTasks == taskSeed
      ensures stations == [] && selectedStationId == None && alerts == [] && maintenanceTasks == []
      ensures !isLoading && error == None
    {
      seedStations := stationSeed;
      seedAlerts := alertSeed;
      seedTasks := taskSeed;
      stations := [];
      selectedStationId := None;
      alerts := [];
      maintenanceTasks := [];
      isLoading := false;
      error := None;
    }

    /** The first half of `fetchStations`, before the simulated delay. */
    method BeginFetchStations()
      modifies this
      ensures isLoading && error == None
      ensures stations == old(stations) && selectedStationId == old(selectedStationId)
      ensures alerts == old(alerts) && maintenanceTasks == old(maintenanceTasks)
    {
      isLoading := true;
      error := None;
    }

    /** The second half of `fetchStations`: load the seeds and select the first station. */
    method FinishFetchStations()
      modifies this
      ensures stations == seedStations && alerts == seedAlerts && maintenanceTasks == seedTasks
      ensures !isLoading && selectedStationId == FirstStationId(seedStations)
      ensures error == old(error)
    {
      stations := seedStations;
      alerts := seedAlerts;
      maintenanceTasks := seedTasks;
      isLoading := false;
      selectedStationId := FirstStationId(seedStations);
    }

    /** `fetchStations` without the delay: the store ends loaded, not loading and without error. */
    method FetchStations()
      modifies this
      ensures stations == seedStations && alerts == seedAlerts && maintenanceTasks == seedTasks
      ensures !isLoading && error == None && selectedStationId == FirstStationId(seedStations)
    {
      BeginFetchStations();
      FinishFetchStations();
    }

    /**
     * `updateSensorData`: the stations are regenerated from the seed stations, whatever the
     * store holds; so ticks do not accumulate and an unfetched store gets stations too.
     */
    method UpdateSensorData(draws: seq<StationDraws>, now: int)
      requires DrawsFit(seedStations, draws)
      modifies this
      ensures stations == GenerateUpdatedSensorData(seedStations, draws, now)
      ensures selectedStationId == old(selectedStationId) && alerts == old(alerts)
      ensures maintenanceTasks == old(maintenanceTasks)
      ensures isLoading == old(isLoading) && error == old(error)
    {
      var updatedStations := GenerateUpdatedSensorData(seedStations, draws, now);
      stations := updatedStations;
    }

    method SelectStation(stationId: string)
      modifies this
      ensures selectedStationId == Some(stationId)
      ensures stations == old(stations) && alerts == old(alerts)
      ensures maintenanceTasks == old(maintenanceTasks)
      ensures isLoading == old(isLoading) && error == old(error)
    {
      selectedStationId := Some(stationId);
    }

    method MarkAlertAsRead(alertId: string)
      modifies this
      ensures alerts == MarkRead(old(alerts), alertId)
      ensures UnreadCount(alerts) == UnreadCount(old(alerts)) - UnreadWithId(old(alerts), alertId)
      ensures stations == old(stations) && selectedStationId == old(selectedStationId)
      ensures maintenanceTasks == old(maintenanceTasks)
      ensures isLoading == old(isLoading) && error == old(error)
    {
      MarkReadLowersUnread(alerts, alertId);
      alerts := MarkRead(alerts, alertId);
    }

    method UpdateMaintenanceTaskStatus(taskId: string, status: TaskStatus)
      modifies this
      ensures maintenanceTasks == SetTaskStatus(old(maintenanceTasks), taskId, status)
      ensures stations == old(stations) && selectedStationId == old(selectedStationId)
      ensures alerts == old(alerts)
      ensures isLoading == old(isLoading) && error == old(error)
    {
      maintenanceTasks := SetTaskStatus(maintenanceTasks, taskId, status);
    }
  }
}
