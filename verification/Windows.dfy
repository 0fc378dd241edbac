/**
 Weekly availability and date overrides. Creating, deleting and, on a fresh read, updating rows keeps active
 windows disjoint and accepts exactly the rows for which that is possible. Hence listed slots never overlap.
 */
module Windows {
  import opened Options
  import opened Calendar
  import opened Slots
  import opened SlotTheorems

  /** The time-of-day overlap of the repository queries. */
  predicate WindowsMeet(v: Window, w: Window) {
    v.start < w.end && v.end > w.start
  }

  // ----- Weekly availability ----------------------------------------------------------------------

  predicate WeeklyClash(a: Availability, b: Availability) {
    a.isActive && b.isActive && a.provider == b.provider && a.weekday == b.weekday && WindowsMeet(a.window, b.window)
  }

  /** The overlap query over active rows, leaving one row out. */
  predicate HasOverlap(rows: map<int, Availability>, provider: int, weekday: int, window: Window,
      excluded: Option<int>) {
    exists id :: id in rows && excluded != Some(id)
                 && WeeklyClash(rows[id], Availability(provider, weekday, window, true))
  }

  /** The table's unique constraint, which counts inactive rows too. */
  predicate Duplicates(rows: map<int, Availability>, row: Availability, excluded: Option<int>) {
    exists id :: id in rows && excluded != Some(id)
      && rows[id].provider == row.provider && rows[id].weekday == row.weekday && rows[id].window == row.window
  }

  predicate WeeklyDisjoint(rows: map<int, Availability>) {
    forall a, b :: a in rows && b in rows && a != b ==> !WeeklyClash(rows[a], rows[b])
  }

  predicate ProperRow(row: Availability) {
    row.window.start < row.window.end && 0 <= row.weekday <= 6
  }

  predicate Accepts(rows: map<int, Availability>, row: Availability, excluded: Option<int>) {
    && ProperRow(row)
    && (row.isActive ==> !HasOverlap(rows, row.provider, row.weekday, row.window, excluded))
    && !Duplicates(rows, row, excluded)
  }

  /** Two active weekly rows of one provider and weekday share some time of day. */
  predicate SharesTime(a: Availability, b: Availability) {
    && a.isActive && b.isActive && a.provider == b.provider && a.weekday == b.weekday
    && a.window.start < b.window.end && b.window.start < a.window.end
  }

  /**
   A row is accepted exactly if its window is proper, its weekday exists, no other active row shares its time when it
   is active, and no other row at all has its provider, weekday, start and end. Windows may touch.
   */
  lemma AcceptsExact(rows: map<int, Availability>, row: Availability, excluded: Option<int>)
    ensures Accepts(rows, row, excluded) <==>
            && row.window.start < row.window.end && 0 <= row.weekday <= 6
            && (forall id :: id in rows && excluded != Some(id) ==>
                  && !SharesTime(rows[id], row)
                  && !(rows[id].provider == row.provider && rows[id].weekday == row.weekday
                       && rows[id].window.start == row.window.start && rows[id].window.end == row.window.end))
  {
    if row.isActive && HasOverlap(rows, row.provider, row.weekday, row.window, excluded) {
      var id :| id in rows && excluded != Some(id)
        && WeeklyClash(rows[id], Availability(row.provider, row.weekday, row.window, true));
      assert SharesTime(rows[id], row);
    }
    if id :| id in rows && excluded != Some(id) && SharesTime(rows[id], row) {
      assert WeeklyClash(rows[id], Availability(row.provider, row.weekday, row.window, true));
    }
  }

  /** The overlap check is exact: writing the row keeps the table disjoint if and only if the check passes. */
  lemma WeeklyCheckExact(rows: map<int, Availability>, id: int, row: Availability)
    requires WeeklyDisjoint(rows)
    ensures WeeklyDisjoint(rows[id := row])
            <==> (row.isActive ==> !HasOverlap(rows, row.provider, row.weekday, row.window, Some(id)))
  {
    var after := rows[id := row];
    if row.isActive && HasOverlap(rows, row.provider, row.weekday, row.window, Some(id)) {
      var other :| other in rows && other != id
        && WeeklyClash(rows[other], Availability(row.provider, row.weekday, row.window, true));
      assert WeeklyClash(after[other], after[id]);
    } else {
      forall a, b | a in after && b in after && a != b ensures !WeeklyClash(after[a], after[b]) {
      }
    }
  }

  /** An update leaves unset fields as they are. */
  datatype AvailabilityPatch =
    AvailabilityPatch(weekday: Option<int>, start: Option<TimeOfDay>, end: Option<TimeOfDay>, isActive: Option<bool>)

  function Get<T>(o: Option<T>, otherwise: T): T {
    if o.Some? then o.value else otherwise
  }

  function Patched(row: Availability, p: AvailabilityPatch): Availability {
    Availability(row.provider, Get(p.weekday, row.weekday),
                 Window(Get(p.start, row.window.start), Get(p.end, row.window.end)), Get(p.isActive, row.isActive))
  }

  function Written<T(==)>(before: T, after: T, current: T): T {
    if after != before then after else current
  }

  /** Only the columns the update changes from what it saw are written. */
  function WrittenOver(current: Availability, seen: Availability, p: AvailabilityPatch): Availability {
    var t := Patched(seen, p);
    Availability(current.provider, Written(seen.weekday, t.weekday, current.weekday),
                 Window(Written(seen.window.start, t.window.start, current.window.start),
                        Written(seen.window.end, t.window.end, current.window.end)),
                 Written(seen.isActive, t.isActive, current.isActive))
  }

  /** An update sets the fields it gives and keeps the others; the provider is not among them. */
  lemma PatchedExact(row: Availability, p: AvailabilityPatch)
    ensures var t := Patched(row, p);
            && t.provider == row.provider
            && t.weekday == (match p.weekday case Some(d) => d case None => row.weekday)
            && t.window.start == (match p.start case Some(u) => u case None => row.window.start)
            && t.window.end == (match p.end case Some(u) => u case None => row.window.end)
            && t.isActive == (match p.isActive case Some(b) => b case None => row.isActive)
  {
  }

  /** What is stored: a field given with another value than the one seen, and otherwise the field as it is now. */
  lemma WrittenExact(current: Availability, seen: Availability, p: AvailabilityPatch)
    ensures var t := WrittenOver(current, seen, p);
            && t.provider == current.provider
            && t.weekday == (if p.weekday.Some? && p.weekday.value != seen.weekday then p.weekday.value
                             else current.weekday)
            && t.window.start == (if p.start.Some? && p.start.value != seen.window.start then p.start.value
                                  else current.window.start)
            && t.window.end == (if p.end.Some? && p.end.value != seen.window.end then p.end.value
                                else current.window.end)
            && t.isActive == (if p.isActive.Some? && p.isActive.value != seen.isActive then p.isActive.value
                              else current.isActive)
    ensures current == seen ==> WrittenOver(current, seen, p) == Patched(seen, p)
  {
  }

  /** The overlap check, made on the row itself. */
  predicate NoClash(rows: map<int, Availability>, row: Availability, id: int) {
    row.isActive ==> !HasOverlap(rows, row.provider, row.weekday, row.window, Some(id))
  }

  /**
   Two updates of one row, each accepted on the row as it read it: one lengthens a Monday window, the other
   moves it to Tuesday. The row they leave overlaps a Tuesday window that neither looked at.
   */
  lemma StaleUpdateCollides()
    ensures exists rows: map<int, Availability>, id: int, first: AvailabilityPatch, second: AvailabilityPatch ::
              && id in rows && WeeklyDisjoint(rows)
              && Accepts(rows, Patched(rows[id], first), Some(id))
              && var between := rows[id := Patched(rows[id], first)];
                 && Accepts(between, Patched(rows[id], second), Some(id))
                 && ProperRow(WrittenOver(between[id], rows[id], second))
                 && !WeeklyDisjoint(between[id := WrittenOver(between[id], rows[id], second)])
  {
    var monday := Availability(1, 0, Window(9 * 60 * MINUTE, 10 * 60 * MINUTE), true);
    var tuesday := Availability(1, 1, Window(11 * 60 * MINUTE, 13 * 60 * MINUTE), true);
    var rows := map[1 := monday, 2 := tuesday];
    var longer := AvailabilityPatch(None, None, Some(12 * 60 * MINUTE), None);
    var moved := AvailabilityPatch(Some(1), None, None, None);
    var between := rows[1 := Patched(monday, longer)];
    var written := WrittenOver(between[1], monday, moved);
    assert written == Availability(1, 1, Window(9 * 60 * MINUTE, 12 * 60 * MINUTE), true);
    var after := between[1 := written];
    assert WeeklyClash(after[1], after[2]);
    assert rows[1] == monday && Accepts(rows, Patched(rows[1], longer), Some(1))
        && Accepts(between, Patched(rows[1], moved), Some(1));
  }

  class AvailabilityService {
    const providers: set<int>
    var rows: map<int, Availability>
    var nextId: int

    ghost predicate Valid()
      reads this
    {
      && (forall id :: id in rows ==> id < nextId && ProperRow(rows[id]))
      && WeeklyDisjoint(rows)
    }

    constructor (providers: set<int>)
      ensures Valid() && rows == map[] && this.providers == providers
    {
      this.providers, rows, nextId := providers, map[], 0;
    }

    method Create(row: Availability) returns (r: Result<int>)
      requires Valid()
      modifies this`rows, this`nextId
      ensures Valid()
      ensures r.Ok? <==> row.provider in providers && Accepts(old(rows), row, None)
      ensures r.Ok? ==> r.value !in old(rows) && rows == old(rows)[r.value := row]
      ensures r.Err? ==> rows == old(rows)
    {
      if row.provider !in providers {
        return Err(NotFound);
      }
      if row.window.start >= row.window.end || !(0 <= row.weekday <= 6) {
        return Err(Invalid);
      }
      if row.isActive && HasOverlap(rows, row.provider, row.weekday, row.window, None) {
        return Err(Overlapping);
      }
      if Duplicates(rows, row, None) {
        return Err(Conflict);
      }
      WeeklyCheckExact(rows, nextId, row);
      rows := rows[nextId := row];
      nextId := nextId + 1;
      return Ok(nextId - 1);
    }

    /**
     `seen` is the row as it was read before the provider's lock was granted; another update may have
     committed since. The check is made on the row as seen, the write goes to the row as it is.
     */
    method Update(id: int, seen: Option<Availability>, patch: AvailabilityPatch) returns (r: Result<()>)
      requires Valid()
      requires seen.Some? && id in rows ==> seen.value.provider == rows[id].provider
      modifies this`rows
      ensures forall k :: k in rows ==> k < nextId && ProperRow(rows[k])
      ensures r.Ok? ==>
              seen.Some? && id in old(rows) && rows == old(rows)[id := WrittenOver(old(rows)[id], seen.value, patch)]
      ensures r.Err? ==> rows == old(rows)
      ensures r.Ok? ==> (Valid() <==> NoClash(old(rows), WrittenOver(old(rows)[id], seen.value, patch), id))
      ensures id in old(rows) && seen == Some(old(rows)[id]) ==>
                && Valid()
                && (r.Ok? <==>
                          seen.value.provider in providers && Accepts(old(rows), Patched(seen.value, patch), Some(id)))
                && (r.Ok? ==> rows[id] == Patched(seen.value, patch))
    {
      if seen.None? || seen.value.provider !in providers {
        return Err(NotFound);
      }
      var target := Patched(seen.value, patch);
      if target.window.start >= target.window.end {
        return Err(Invalid);
      }
      if target.isActive && HasOverlap(rows, target.provider, target.weekday, target.window, Some(id)) {
        return Err(Overlapping);
      }
      if id !in rows {
        return Err(Conflict);
      }
      var written := WrittenOver(rows[id], seen.value, patch);
      if !ProperRow(written) || Duplicates(rows, written, Some(id)) {
        return Err(Conflict);
      }
      WeeklyCheckExact(rows, id, written);
      rows := rows[id := written];
      return Ok(());
    }

    method Delete(id: int) returns (found: bool)
      requires Valid()
      modifies this`rows
      ensures Valid()
      ensures found == (id in old(rows)) && rows == old(rows) - {id}
    {
      found := id in rows;
      rows := rows - {id};
    }
  }

  // ----- Date overrides -------------------------------------------------------------------------

  /** An override as it arrives: availability and optional hours are given separately. */
  datatype OverridePayload = OverridePayload(provider: int, date: int, isAvailable: bool,
                                             start: Option<TimeOfDay>, end: Option<TimeOfDay>, isActive: bool)

  predicate SameDay(a: DateOverride, b: DateOverride) {
    a.isActive && b.isActive && a.provider == b.provider && a.date == b.date
  }

  /** Two active rows of one day clash unless both give hours and the hours are disjoint. */
  predicate OverrideClash(a: DateOverride, b: DateOverride) {
    SameDay(a, b) && (a.hours.None? || b.hours.None? || WindowsMeet(a.hours.value, b.hours.value))
  }

  predicate OverridesConsistent(rows: map<int, DateOverride>) {
    forall a, b :: a in rows && b in rows && a != b ==> !OverrideClash(rows[a], rows[b])
  }

  predicate HasOverrideOverlap(rows: map<int, DateOverride>, provider: int, date: int, w: Window,
      excluded: Option<int>) {
    exists id :: id in rows && excluded != Some(id) && rows[id].provider == provider && rows[id].date == date
                 && rows[id].isActive && rows[id].hours.Some? && WindowsMeet(rows[id].hours.value, w)
  }

  predicate HasActiveUnavailableDay(rows: map<int, DateOverride>, provider: int, date: int, excluded: Option<int>) {
    exists id :: id in rows && excluded != Some(id) && rows[id].provider == provider && rows[id].date == date
      && rows[id].isActive && rows[id].hours.None?
  }

  predicate HasActiveAvailableWindows(rows: map<int, DateOverride>, provider: int, date: int, excluded: Option<int>) {
    exists id :: id in rows && excluded != Some(id) && rows[id].provider == provider && rows[id].date == date
      && rows[id].isActive && rows[id].hours.Some?
  }

  /** Validation, yielding the row to store. */
  function Validated(rows: map<int, DateOverride>, p: OverridePayload, excluded: Option<int>): Result<DateOverride> {
    if p.isAvailable then
      if p.start.None? || p.end.None? then Err(Invalid)
      else if p.start.value >= p.end.value then Err(Invalid)
      else if p.isActive && HasActiveUnavailableDay(rows, p.provider, p.date, excluded) then Err(Conflict)
      else if p.isActive
              && HasOverrideOverlap(rows, p.provider, p.date, Window(p.start.value, p.end.value), excluded) then
        Err(Overlapping)
      else Ok(DateOverride(p.provider, p.date, Some(Window(p.start.value, p.end.value)), p.isActive))
    else if p.start.Some? || p.end.Some? then Err(Invalid)
    else if p.isActive && HasActiveAvailableWindows(rows, p.provider, p.date, excluded) then Err(Conflict)
    else if p.isActive && HasActiveUnavailableDay(rows, p.provider, p.date, excluded) then Err(Conflict)
    else Ok(DateOverride(p.provider, p.date, None, p.isActive))
  }

  predicate ProperHours(row: DateOverride) {
    row.hours.Some? ==> row.hours.value.start < row.hours.value.end
  }

  predicate WellShaped(p: OverridePayload) {
    if p.isAvailable then p.start.Some? && p.end.Some? && p.start.value < p.end.value
    else p.start.None? && p.end.None?
  }

  function RowFor(p: OverridePayload): DateOverride
    requires WellShaped(p)
  {
    DateOverride(p.provider, p.date,
                 if p.isAvailable then Some(Window(p.start.value, p.end.value)) else None, p.isActive)
  }

  /** Validation is exact: a well-shaped payload passes if and only if storing it keeps every day consistent. */
  lemma OverrideCheckExact(rows: map<int, DateOverride>, id: int, p: OverridePayload)
    requires OverridesConsistent(rows)
    ensures Validated(rows, p, Some(id)).Ok?
            <==> WellShaped(p) && OverridesConsistent(rows[id := RowFor(p)])
    ensures Validated(rows, p, Some(id)).Ok? ==> Validated(rows, p, Some(id)).value == RowFor(p)
  {
    if WellShaped(p) {
      var row := RowFor(p);
      var after := rows[id := row];
      if Validated(rows, p, Some(id)).Ok? {
        forall b | b in rows && b != id ensures !OverrideClash(row, rows[b]) {
        }
        forall a, b | a in after && b in after && a != b ensures !OverrideClash(after[a], after[b]) {
          if a == id {
            assert !OverrideClash(row, rows[b]);
          } else if b == id {
            assert !OverrideClash(row, rows[a]);
          }
        }
      } else {
        var other :| other in rows && other != id && OverrideClash(rows[other], row);
        assert OverrideClash(after[other], after[id]);
      }
    }
  }

  /** The two ways a consistent day can look: one closing row and nothing else, or disjoint hours only. */
  lemma ConsistentDay(rows: map<int, DateOverride>, a: int, b: int)
    requires OverridesConsistent(rows)
    requires a in rows && b in rows && a != b && SameDay(rows[a], rows[b])
    ensures rows[a].hours.Some? && rows[b].hours.Some? && !WindowsMeet(rows[a].hours.value, rows[b].hours.value)
  {
    assert !OverrideClash(rows[a], rows[b]);
  }

  /** An update of an override; hours can be set, cleared or left alone. */
  datatype OverridePatch = OverridePatch(date: Option<int>, isAvailable: Option<bool>, start: Option<Option<TimeOfDay>>,
                                         end: Option<Option<TimeOfDay>>, isActive: Option<bool>)

  /** A row as its columns. */
  function Columns(row: DateOverride): OverridePayload {
    OverridePayload(row.provider, row.date, row.hours.Some?,
                    if row.hours.Some? then Some(row.hours.value.start) else None,
                    if row.hours.Some? then Some(row.hours.value.end) else None, row.isActive)
  }

  function PatchedPayload(row: DateOverride, p: OverridePatch): OverridePayload {
    var c := Columns(row);
    OverridePayload(row.provider, Get(p.date, c.date), Get(p.isAvailable, c.isAvailable), Get(p.start, c.start),
                    Get(p.end, c.end), Get(p.isActive, c.isActive))
  }

  /** The columns after an update that saw `seen`. */
  function PayloadOver(current: DateOverride, seen: DateOverride, p: OverridePatch): OverridePayload {
    var c, s, t := Columns(current), Columns(seen), PatchedPayload(seen, p);
    OverridePayload(c.provider, Written(s.date, t.date, c.date), Written(s.isAvailable, t.isAvailable, c.isAvailable),
                    Written(s.start, t.start, c.start), Written(s.end, t.end, c.end),
                    Written(s.isActive, t.isActive, c.isActive))
  }

  /** Another active override of the payload's provider and day stands in its way. */
  predicate Hinders(row: DateOverride, p: OverridePayload) {
    && row.isActive && row.provider == p.provider && row.date == p.date
    && (!p.isAvailable || row.hours.None?
        || (p.start.Some? && p.end.Some?
            && row.hours.value.start < p.end.value && p.start.value < row.hours.value.end))
  }

  /**
   A payload passes exactly if it gives proper hours, or none for a closing row, and, when it is active, no other active
   override of the day is closing, is hours where it closes, or shares time with its hours.
   */
  lemma ValidatedExact(rows: map<int, DateOverride>, p: OverridePayload, excluded: Option<int>)
    ensures Validated(rows, p, excluded).Ok? <==>
            && (if p.isAvailable then p.start.Some? && p.end.Some? && p.start.value < p.end.value
                else p.start.None? && p.end.None?)
            && (p.isActive ==> forall id :: id in rows && excluded != Some(id) ==> !Hinders(rows[id], p))
    ensures Validated(rows, p, excluded).Ok? ==>
              var row := Validated(rows, p, excluded).value;
              && row.provider == p.provider && row.date == p.date && row.isActive == p.isActive
              && (row.hours.Some? <==> p.isAvailable)
              && (p.isAvailable ==> row.hours.value.start == p.start.value && row.hours.value.end == p.end.value)
  {
    if id :| id in rows && excluded != Some(id) && Hinders(rows[id], p) {
      if rows[id].hours.None? {
        assert HasActiveUnavailableDay(rows, p.provider, p.date, excluded);
      } else if !p.isAvailable {
        assert HasActiveAvailableWindows(rows, p.provider, p.date, excluded);
      } else if p.start.Some? && p.end.Some? && p.start.value < p.end.value {
        assert HasOverrideOverlap(rows, p.provider, p.date, Window(p.start.value, p.end.value), excluded);
      }
    }
  }

  /** An update of an override sets the columns it gives and keeps the others; hours given as none are cleared. */
  lemma PatchedPayloadExact(row: DateOverride, p: OverridePatch)
    ensures var t := PatchedPayload(row, p);
            && t.provider == row.provider
            && t.date == (match p.date case Some(d) => d case None => row.date)
            && t.isAvailable == (match p.isAvailable case Some(b) => b case None => row.hours.Some?)
            && t.isActive == (match p.isActive case Some(b) => b case None => row.isActive)
            && (p.start.Some? ==> t.start == p.start.value) && (p.end.Some? ==> t.end == p.end.value)
            && (p.start.None? ==> (t.start.Some? <==> row.hours.Some?)
                                  && (row.hours.Some? ==> t.start.value == row.hours.value.start))
            && (p.end.None? ==> (t.end.Some? <==> row.hours.Some?)
                                && (row.hours.Some? ==> t.end.value == row.hours.value.end))
  {
  }

  /** As for weekly rows: a column is stored if it is given with another value than the one seen. */
  lemma PayloadOverExact(current: DateOverride, seen: DateOverride, p: OverridePatch)
    ensures var c, s, t, u := Columns(current), Columns(seen), PatchedPayload(seen, p), PayloadOver(current, seen, p);
            && u.provider == current.provider
            && u.date == (if t.date != seen.date then t.date else current.date)
            && u.isAvailable == (if t.isAvailable != seen.hours.Some? then t.isAvailable else current.hours.Some?)
            && u.isActive == (if t.isActive != seen.isActive then t.isActive else current.isActive)
            && u.start == (if t.start != s.start then t.start else c.start)
            && u.end == (if t.end != s.end then t.end else c.end)
    ensures current == seen ==> PayloadOver(current, seen, p) == PatchedPayload(seen, p)
  {
  }

  lemma ValidatedShape(rows: map<int, DateOverride>, p: OverridePayload, excluded: Option<int>)
    requires Validated(rows, p, excluded).Ok?
    ensures WellShaped(p) && Validated(rows, p, excluded).value == RowFor(p)
  {
  }

  class DateOverrideService {
    const providers: set<int>
    var rows: map<int, DateOverride>
    var nextId: int

    ghost predicate Valid()
      reads this
    {
      && (forall id :: id in rows ==> id < nextId && ProperHours(rows[id]))
      && OverridesConsistent(rows)
    }

    constructor (providers: set<int>)
      ensures Valid() && rows == map[] && this.providers == providers
    {
      this.providers, rows, nextId := providers, map[], 0;
    }

    method Create(p: OverridePayload) returns (r: Result<int>)
      requires Valid()
      modifies this`rows, this`nextId
      ensures Valid()
      ensures r.Ok? <==> p.provider in providers && Validated(old(rows), p, None).Ok?
      ensures r.Ok? ==> WellShaped(p) && r.value !in old(rows) && rows == old(rows)[r.value := RowFor(p)]
      ensures r.Err? ==> rows == old(rows)
    {
      if p.provider !in providers {
        return Err(NotFound);
      }
      var row := Validated(rows, p, None);
      if row.Err? {
        return Err(row.error);
      }
      ValidatedShape(rows, p, None);
      assert Validated(rows, p, Some(nextId)).Ok?;
      OverrideCheckExact(rows, nextId, p);
      rows := rows[nextId := row.value];
      nextId := nextId + 1;
      return Ok(nextId - 1);
    }

    /** As for weekly rows: validated on the row as seen, written to the row as it is. */
    method Update(id: int, seen: Option<DateOverride>, patch: OverridePatch) returns (r: Result<()>)
      requires Valid()
      requires seen.Some? && id in rows ==> seen.value.provider == rows[id].provider
      modifies this`rows
      ensures forall k :: k in rows ==> k < nextId && ProperHours(rows[k])
      ensures r.Err? ==> rows == old(rows)
      ensures r.Ok? ==> seen.Some? && id in old(rows)
                        && var p := PayloadOver(old(rows)[id], seen.value, patch);
                           WellShaped(p) && rows == old(rows)[id := RowFor(p)]
      ensures r.Ok? ==> (Valid() <==> Validated(old(rows), PayloadOver(old(rows)[id], seen.value, patch), Some(id)).Ok?)
      ensures id in old(rows) && seen == Some(old(rows)[id]) ==>
                && Valid()
                && (r.Ok? <==> seen.value.provider in providers
                               && Validated(old(rows), PatchedPayload(seen.value, patch), Some(id)).Ok?)
    {
      if seen.None? || seen.value.provider !in providers {
        return Err(NotFound);
      }
      var target := PatchedPayload(seen.value, patch);
      var row := Validated(rows, target, Some(id));
      if row.Err? {
        return Err(row.error);
      }
      ValidatedShape(rows, target, Some(id));
      if id !in rows {
        return Err(Conflict);
      }
      var written := PayloadOver(rows[id], seen.value, patch);
      if !WellShaped(written) {
        return Err(Conflict);
      }
      OverrideCheckExact(rows, id, written);
      rows := rows[id := RowFor(written)];
      return Ok(());
    }

    method Delete(id: int) returns (found: bool)
      requires Valid()
      modifies this`rows
      ensures Valid()
      ensures found == (id in old(rows)) && rows == old(rows) - {id}
    {
      found := id in rows;
      rows := rows - {id};
    }
  }

  // ----- Slots over maintained windows ------------------------------------------------------------

  /** A query's result: rows of the table, each at most once. */
  ghost predicate SelectedFrom<T>(selected: seq<T>, ids: seq<int>, rows: map<int, T>) {
    && |ids| == |selected|
    && (forall i, j :: 0 <= i < j < |ids| ==> ids[i] != ids[j])
    && (forall i :: 0 <= i < |ids| ==> ids[i] in rows && selected[i] == rows[ids[i]])
  }

  predicate RowsApart(selected: seq<Availability>) {
    forall i, j :: 0 <= i < j < |selected| ==> !WeeklyClash(selected[i], selected[j])
  }

  predicate OverrideRowsApart(selected: seq<DateOverride>) {
    forall i, j :: 0 <= i < j < |selected| ==> !OverrideClash(selected[i], selected[j])
  }

  lemma {:induction false} WeeklyWindowsApart(rows: seq<Availability>, provider: int, weekday: int)
    requires RowsApart(rows)
    ensures WindowsApart(WeeklyWindows(rows, provider, weekday))
  {
    if rows != [] {
      var n := |rows| - 1;
      WeeklyWindowsApart(rows[..n], provider, weekday);
      var before := WeeklyWindows(rows[..n], provider, weekday);
      if rows[n].provider == provider && rows[n].weekday == weekday && rows[n].isActive {
        forall i | 0 <= i < |before| ensures !WindowsMeet(before[i], rows[n].window) {
          WeeklyWindowsExact(rows[..n], provider, weekday, before[i]);
          var k :| 0 <= k < |rows[..n]| && rows[..n][k] == Availability(provider, weekday, before[i], true);
          assert !WeeklyClash(rows[k], rows[n]);
        }
      }
    }
  }

  lemma {:induction false} OverrideWindowsApart(rows: seq<DateOverride>, provider: int, day: int)
    requires OverrideRowsApart(rows)
    ensures WindowsApart(OverrideWindows(rows, provider, day))
  {
    if rows != [] {
      var n := |rows| - 1;
      OverrideWindowsApart(rows[..n], provider, day);
      var before := OverrideWindows(rows[..n], provider, day);
      if rows[n].provider == provider && rows[n].date == day && rows[n].isActive && rows[n].hours.Some? {
        forall i | 0 <= i < |before| ensures !WindowsMeet(before[i], rows[n].hours.value) {
          OverrideWindowsExact(rows[..n], provider, day, before[i]);
          var k :| 0 <= k < |rows[..n]| && rows[..n][k] == DateOverride(provider, day, Some(before[i]), true);
          assert !OverrideClash(rows[k], rows[n]);
        }
      }
    }
  }

  /**
   When the windows come from tables the two services maintain, every slot list is strictly increasing
   and its slots are pairwise disjoint.
   */
  lemma MaintainedWindowsGiveDisjointSlots(
    weekly: map<int, Availability>, weeklyIds: seq<int>, overrides: map<int, DateOverride>, overrideIds: seq<int>,
    cat: Catalogue, appointments: seq<Appointment>, zone: Zone, provider: int, location: int, first: int, last: int,
        service: Option<int>)
    requires WeeklyDisjoint(weekly) && SelectedFrom(cat.availabilities, weeklyIds, weekly)
    requires OverridesConsistent(overrides) && SelectedFrom(cat.overrides, overrideIds, overrides)
    requires Increasing(zone, first, last)
    ensures var r := AvailableSlots(cat, appointments, zone, provider, location, first, last, service);
            r.Ok? ==> forall i, j :: 0 <= i < j < |r.value| ==> r.value[i].start < r.value[i].end <= r.value[j].start
  {
    forall i, j | 0 <= i < j < |cat.availabilities| ensures !WeeklyClash(cat.availabilities[i], cat.availabilities[j]) {
      assert !WeeklyClash(weekly[weeklyIds[i]], weekly[weeklyIds[j]]);
    }
    forall i, j | 0 <= i < j < |cat.overrides| ensures !OverrideClash(cat.overrides[i], cat.overrides[j]) {
      assert !OverrideClash(overrides[overrideIds[i]], overrides[overrideIds[j]]);
    }
    forall d | first <= d <= last ensures WindowsApart(DayWindows(cat, provider, d)) {
      WeeklyWindowsApart(cat.availabilities, provider, Weekday(d));
      OverrideWindowsApart(cat.overrides, provider, d);
    }
    SlotsNeverOverlap(cat, appointments, zone, provider, location, first, last, service);
  }
}
