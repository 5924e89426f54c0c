/** The plain records of the remote schema. In event payloads a `Pipeline`
    carries only its name; in board responses it also carries its id and
    issues. */
module Boards {
  import opened Wrappers

  /** An issue's size. Declared beside the events in the source, kept here
      because an `Issue` refers to it as well. */
  datatype Estimate = Estimate(value: int)

  datatype Issue = Issue(issueNumber: int, estimate: Option<Estimate>, position: int, isEpic: bool)

  datatype Pipeline = Pipeline(id: string, name: string, issues: seq<Issue>)

  /** The pipelines of one repository, in column order. */
  datatype Board = Board(pipelines: seq<Pipeline>)
}
