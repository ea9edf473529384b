/**
 * Which entries of a log are a given runtime's own: its requests say of a tool what its gateway's
 * manifests say, and its contexts show the contents its store has for the answers.
 */
module Provenance {
  import opened Protocol
  import opened Events
  import opened Context
  import opened Admission
  import opened GateMeaning

  predicate OwnBody(body: EventBody, log: seq<Event>, g: Gateway, contents: Contents)
  {
    && AsDeclared(body, g.manifests)
    && (body.ContextAssembled? ==> AnswersShown(body.blocks, contents, log))
  }

  predicate Own(log: seq<Event>, g: Gateway, contents: Contents)
  {
    forall i :: 0 <= i < |log| ==> OwnBody(log[i].body, log[..i], g, contents)
  }

  lemma OwnSnoc(log: seq<Event>, ev: Event, g: Gateway, contents: Contents)
    requires Own(log, g, contents) && OwnBody(ev.body, log, g, contents)
    ensures Own(log + [ev], g, contents)
  {
    hide OwnBody;
    assert forall i :: 0 <= i <= |log| ==> (log + [ev])[..i] == log[..i];
  }

  lemma OwnAt(log: seq<Event>, i: nat, g: Gateway, contents: Contents)
    requires Own(log, g, contents) && i < |log|
    ensures OwnBody(log[i].body, log[..i], g, contents)
  {
  }

  /** Most entries need no such proof. */
  lemma PlainBody(body: EventBody, log: seq<Event>, g: Gateway, contents: Contents)
    requires !body.ToolRequested? && !body.ContextAssembled?
    ensures OwnBody(body, log, g, contents)
  {
  }
}
