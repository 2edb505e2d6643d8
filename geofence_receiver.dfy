/** The geofence broadcast receiver: a chain of early returns deciding
    whether an incoming broadcast is handed on to the background job that
    posts the notification. */
module Geofence {
  import opened Data

  /** The action the reminders screen puts on the geofence broadcast. */
  const ACTION_GEOFENCE_EVENT := "com.udacity.project4.intent.action.ACTION_GEOFENCE_EVENT"

  /** The platform's code for entering a geofence. */
  const GEOFENCE_TRANSITION_ENTER := 1

  /** What the location services report in a geofencing event. The
      triggering geofences are given by their request ids and may be null. */
  datatype GeofencingEvent = GeofencingEvent(hasError: bool, geofenceTransition: int,
                                             triggeringGeofences: Option<seq<string>>)

  /** An incoming broadcast: its action (possibly null) and what parsing it
      as a geofencing event yields (None when parsing gives null). */
  datatype Intent = Intent(action: Option<string>, event: Option<GeofencingEvent>)

  /** The receiver's guards in source order: wrong action, unparsable event,
      event with an error, a transition other than enter, and null or empty
      triggering geofences each end the call without handing anything on. */
  predicate ShouldEnqueue(intent: Intent)
    ensures ShouldEnqueue(intent) <==>
              && intent.action == Some(ACTION_GEOFENCE_EVENT)
              && intent.event.Some?
              && !intent.event.value.hasError
              && intent.event.value.geofenceTransition == GEOFENCE_TRANSITION_ENTER
              && intent.event.value.triggeringGeofences.Some?
              && |intent.event.value.triggeringGeofences.value| > 0
  {
    if intent.action != Some(ACTION_GEOFENCE_EVENT) then false
    else if intent.event.None? then false
    else
      var event := intent.event.value;
      if event.hasError then false
      else if event.geofenceTransition != GEOFENCE_TRANSITION_ENTER then false
      else if event.triggeringGeofences.None? || event.triggeringGeofences.value == [] then false
      else true
  }

  /** The work `onReceive` enqueues, in order: the broadcast itself when
      every guard passes, nothing otherwise. */
  function OnReceive(intent: Intent): (enqueued: seq<Intent>)
    ensures |enqueued| <= 1
    ensures forall i :: 0 <= i < |enqueued| ==> enqueued[i] == intent
    ensures |enqueued| == 1 <==>
              && intent.action == Some(ACTION_GEOFENCE_EVENT)
              && intent.event.Some?
              && !intent.event.value.hasError
              && intent.event.value.geofenceTransition == GEOFENCE_TRANSITION_ENTER
              && intent.event.value.triggeringGeofences.Some?
              && |intent.event.value.triggeringGeofences.value| > 0
  {
    if ShouldEnqueue(intent) then [intent] else []
  }

  /** A broadcast with any other action, or none, is ignored. */
  lemma WrongActionIgnored(intent: Intent)
    requires intent.action != Some(ACTION_GEOFENCE_EVENT)
    ensures OnReceive(intent) == []
  {
  }

  /** A broadcast that does not parse into a geofencing event is ignored. */
  lemma UnparsableIgnored(intent: Intent)
    requires intent.event.None?
    ensures OnReceive(intent) == []
  {
  }

  /** An event that reports an error is ignored. */
  lemma ErrorEventIgnored(intent: Intent)
    requires intent.event.Some? && intent.event.value.hasError
    ensures OnReceive(intent) == []
  {
  }

  /** An event for any transition but entering is ignored. */
  lemma NonEnterIgnored(intent: Intent)
    requires intent.event.Some? && intent.event.value.geofenceTransition != GEOFENCE_TRANSITION_ENTER
    ensures OnReceive(intent) == []
  {
  }

  /** An event with null or empty triggering geofences is ignored. */
  lemma NoTriggeringGeofencesIgnored(intent: Intent)
    requires intent.event.Some?
    requires intent.event.value.triggeringGeofences.None? || intent.event.value.triggeringGeofences.value == []
    ensures OnReceive(intent) == []
  {
  }
}
