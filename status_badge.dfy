/** The badge shown next to a course in the recent-courses preview: a CSS
    class and a German label for each known status, the raw status otherwise. */
module StatusBadge {
  import opened Wrappers
  import opened Records

  /** Status to CSS class (`map` in `StatusBadge`). */
  const StatusClasses: map<string, string> := map[
    Geplant := "status-geplant",
    Aktiv := "status-aktiv",
    Abgeschlossen := "status-abgeschlossen",
    Abgesagt := "status-abgesagt"]

  /** Status to display label (`labels` in `StatusBadge`). */
  const StatusLabels: map<string, string> := map[
    Geplant := "Geplant",
    Aktiv := "Aktiv",
    Abgeschlossen := "Abgeschlossen",
    Abgesagt := "Abgesagt"]

  /** The classes every badge carries before the status class. */
  const BadgeBaseClass := "inline-flex items-center px-2 py-0.5 rounded-full text-xs font-semibold "

  /** Reference definition of a label: the status with its first letter in
      upper case. */
  function Capitalized(s: string): string {
    if |s| > 0 && 'a' <= s[0] <= 'z' then [(s[0] as int - 32) as char] + s[1..] else s
  }

  /** `map[status] ?? ''`. */
  function StatusClass(status: string): (c: string)
    ensures status in KnownStatuses ==> c == "status-" + status
    ensures status !in KnownStatuses ==> c == ""
  {
    if status in StatusClasses then StatusClasses[status] else ""
  }

  /** Each label is its status capitalized, hence differs from the status. */
  lemma LabelsAreCapitalized(st: string)
    requires st in KnownStatuses
    ensures st in StatusLabels && StatusLabels[st] == Capitalized(st) != st
  {
    assert StatusLabels[st][0] != st[0];
    assert StatusLabels[st] == [StatusLabels[st][0]] + st[1..];
  }

  /** `labels[status] ?? status`: a known status gets its capitalized form,
      any other string is shown unchanged. */
  function StatusLabel(status: string): (l: string)
    ensures status in KnownStatuses ==> l == Capitalized(status)
    ensures l == status <==> status !in KnownStatuses
  {
    if status in StatusLabels then
      LabelsAreCapitalized(status);
      StatusLabels[status]
    else
      status
  }

  datatype Badge = Badge(className: string, text: string)

  /** `kurs.fields.status && <StatusBadge status={kurs.fields.status} />`:
      no badge when the status is absent or the empty string. */
  function CourseBadge(status: Option<string>): (b: Option<Badge>)
    ensures b.Some? <==> status.Some? && status.value != ""
    ensures b.Some? ==> b.value.className == BadgeBaseClass + StatusClass(status.value)
    ensures b.Some? ==> b.value.text == StatusLabel(status.value)
  {
    if status.Some? && status.value != "" then
      Some(Badge(BadgeBaseClass + StatusClass(status.value), StatusLabel(status.value)))
    else
      None
  }
}
