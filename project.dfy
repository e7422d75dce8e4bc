/**
 * The project record (Models/Project.cs) and its computed getters. The id,
 * which the source draws from a fresh Guid, and the creation instant are given.
 */
module Projects {
  import opened Wrappers
  import opened Formatting

  datatype Project = Project(
    id: string,
    name: string,
    color: string,
    description: string,
    createdAt: int,
    isActive: bool,
    totalSeconds: int,
    sessionCount: int)

  const DefaultColor: string := "#FFD700"

  /** A project as `new Project()` leaves it. */
  function NewProject(id: string, createdAt: int): (p: Project)
    ensures p.id == id && p.createdAt == createdAt
    ensures p.name == "" && p.description == "" && p.color == "#FFD700"
    ensures p.isActive && p.totalSeconds == 0 && p.sessionCount == 0
  {
    Project(id, "", DefaultColor, "", createdAt, true, 0, 0)
  }

  /** `FormattedTotalTime`: "{h}h {m}m", the leftover seconds dropped. */
  function FormattedTotalTime(p: Project): string
  {
    HoursMinutesText(p.totalSeconds)
  }

  /** `TotalHours`: the total as a fraction of hours. */
  function TotalHours(p: Project): (h: real)
    ensures h * 3600.0 == p.totalSeconds as real
  {
    Hours(p.totalSeconds)
  }

  /** The text keeps every whole minute of the total and drops only the
      seconds: for a non-negative total, fewer than 60 of them. */
  lemma FormattedTotalTimeRoundTrip(p: Project)
    ensures ParseHoursMinutes(FormattedTotalTime(p))
      == Some(p.totalSeconds - ClockFields(p.totalSeconds).2)
    ensures p.totalSeconds >= 0 ==> 0 <= ClockFields(p.totalSeconds).1 < 60
    ensures p.totalSeconds >= 0 ==> 0 <= p.totalSeconds - ClockFields(p.totalSeconds).2 <= p.totalSeconds
  {
    HoursMinutesRoundTrip(p.totalSeconds);
    ClockFieldsExact(p.totalSeconds);
  }
}
