/** The week shown by the calendar (getSemana, fechaEstaEnSemana,
    cambiarSemana, actualizarInfoSemana). A calendar day is an integer counted
    from 1970-01-01, a Thursday; the JavaScript `Date` arithmetic on local
    days becomes integer arithmetic on these. */
module Week {
  import opened Values

  /** `getDay()`: 0 is Sunday, 1 Monday, ..., 6 Saturday. */
  function Weekday(day: int): (w: int)
    ensures 0 <= w < 7
    // day 0, 1970-01-01, and every seventh day from it are Thursdays;
    // day 4, 1970-01-05, and every seventh day from it are Mondays
    ensures day % 7 == 0 ==> w == 4
    ensures day % 7 == 4 ==> w == 1
  {
    (day + 4) % 7
  }

  lemma WeekdayOf(day: int, q: int, r: int)
    requires 0 <= r < 7 && day + 4 == 7 * q + r
    ensures Weekday(day) == r
  {
    var q' := (day + 4) / 7;
    assert day + 4 == 7 * q' + Weekday(day);
  }

  /** Moving within one week moves the weekday by the same amount. */
  lemma WeekdayShift(day: int, k: int)
    requires 0 <= Weekday(day) + k < 7
    ensures Weekday(day + k) == Weekday(day) + k
  {
    WeekdayOf(day + k, (day + 4) / 7, Weekday(day) + k);
  }

  lemma WeekdayBack(day: int, k: int)
    requires 0 <= k <= Weekday(day)
    ensures Weekday(day - k) == Weekday(day) - k
  {
    WeekdayOf(day - k, (day + 4) / 7, Weekday(day) - k);
  }

  lemma WeekdayPeriodic(day: int)
    ensures Weekday(day + 7) == Weekday(day)
  {
    WeekdayOf(day + 7, (day + 4) / 7 + 1, Weekday(day));
  }

  /** Days back from a weekday to the Monday of its week. */
  function SinceMonday(w: int): int
  {
    if w == 0 then 6 else w - 1
  }

  /** The Monday that starts the Monday-to-Sunday week holding `day`. */
  function MondayOf(day: int): (m: int)
    ensures Weekday(m) == 1 && m <= day <= m + 6
  {
    var back := SinceMonday(Weekday(day));
    if Weekday(day) == 0 then
      WeekdayShift(day, 1);
      WeekdayPeriodic(day - 6);
      day - back
    else
      WeekdayBack(day, back);
      day - back
  }

  datatype WeekRange = WeekRange(lunes: int, domingo: int)

  /** `getSemana(offset)`: move `today` by `7*offset` days; a Saturday or
      Sunday moves on to the next Monday; return that week's Monday and
      Sunday. */
  function GetSemana(today: int, offset: int): (w: WeekRange)
    ensures Weekday(w.lunes) == 1 && w.domingo == w.lunes + 6
    ensures var d := today + 7 * offset;
            && (1 <= Weekday(d) <= 5 ==> w.lunes <= d <= w.domingo)
            && (Weekday(d) == 6 ==> w.lunes == d + 2)
            && (Weekday(d) == 0 ==> w.lunes == d + 1)
  {
    var hoy := today + 7 * offset;
    var dia := Weekday(hoy);
    var hoy' := if dia == 6 then hoy + 2 else if dia == 0 then hoy + 1 else hoy;
    MondayShift(hoy);
    var lunes := hoy' - (Weekday(hoy') - 1);
    WeekRange(lunes, lunes + 6)
  }

  /** Saturday + 2 and Sunday + 1 are Mondays; the week's Monday is then a
      Monday. */
  lemma MondayShift(hoy: int)
    ensures var dia := Weekday(hoy);
            var hoy' := if dia == 6 then hoy + 2 else if dia == 0 then hoy + 1 else hoy;
            1 <= Weekday(hoy') <= 5 && Weekday(hoy' - (Weekday(hoy') - 1)) == 1
  {
    var dia := Weekday(hoy);
    if dia == 6 {
      WeekdayBack(hoy, 5);
      WeekdayPeriodic(hoy - 5);
    } else if dia == 0 {
      WeekdayShift(hoy, 1);
    }
    var hoy' := if dia == 6 then hoy + 2 else if dia == 0 then hoy + 1 else hoy;
    WeekdayBack(hoy', Weekday(hoy') - 1);
  }

  /** Next and previous weeks are exactly seven days away. */
  lemma {:induction false} NextOffsetShiftsWeek(today: int, offset: int)
    ensures GetSemana(today, offset + 1).lunes == GetSemana(today, offset).lunes + 7
    ensures GetSemana(today, offset - 1).lunes == GetSemana(today, offset).lunes - 7
  {
    var d := today + 7 * offset;
    assert today + 7 * (offset + 1) == d + 7;
    assert today + 7 * (offset - 1) == d - 7;
    WeekdayPeriodic(d);
    WeekdayPeriodic(d - 7);
  }

  /** `fechaEstaEnSemana(fecha, offset)`: `fecha` is the day that
      `new Date(fecha + " 00:00:00")` parses to, None for an invalid date
      (every comparison with an invalid date is false). */
  function FechaEstaEnSemana(fecha: Option<int>, today: int, offset: int): (b: bool)
    ensures b <==> fecha.Some? && MondayOf(fecha.value) == GetSemana(today, offset).lunes
  {
    var w := GetSemana(today, offset);
    var enRango := fecha.Some? && w.lunes <= fecha.value && fecha.value <= w.domingo;
    if enRango then
      MondayOfUnique(w.lunes, fecha.value);
      true
    else
      false
  }

  /** Every day of the seven starting on a Monday belongs to that Monday's week. */
  lemma MondayOfUnique(m: int, d: int)
    requires Weekday(m) == 1 && m <= d <= m + 6
    ensures MondayOf(d) == m
  {
    var m' := MondayOf(d);
    var q, q' := (m + 4) / 7, (m' + 4) / 7;
    assert m + 4 == 7 * q + 1;
    assert m' + 4 == 7 * q' + 1;
    assert m' - m == 7 * (q' - q);
  }

  /** A weekday is in its own week; a weekend day is not, and the shown week is
      the one after it. */
  lemma WeekendRollsForward(today: int, offset: int)
    ensures var d := today + 7 * offset;
            && (1 <= Weekday(d) <= 5 ==> FechaEstaEnSemana(Some(d), today, offset))
            && (Weekday(d) == 6 || Weekday(d) == 0 ==>
                  !FechaEstaEnSemana(Some(d), today, offset)
                  && FechaEstaEnSemana(Some(if Weekday(d) == 6 then d + 2 else d + 1), today, offset))
  {
  }

  /** The suffix `actualizarInfoSemana` shows after the dates. */
  function WeekLabel(offset: int): (s: string)
    ensures s == "(Semana Actual)" <==> offset == 0
    ensures s == "(Semana Pasada)" <==> offset < 0
    ensures s == "(Próxima Semana)" <==> offset > 0
  {
    if offset == 0 then "(Semana Actual)"
    else if offset < 0 then "(Semana Pasada)"
    else "(Próxima Semana)"
  }

  /** The page-global `semanaActual`. */
  class WeekNavigator {
    var semanaActual: int

    constructor ()
      ensures semanaActual == 0
    {
      semanaActual := 0;
    }

    /** `cambiarSemana(direccion)`. */
    method CambiarSemana(direccion: int)
      modifies this
      ensures semanaActual == old(semanaActual) + direccion
    {
      semanaActual := semanaActual + direccion;
    }

    /** Loading a new schedule goes back to the current week. */
    method Reset()
      modifies this
      ensures semanaActual == 0
    {
      semanaActual := 0;
    }

    /** `actualizarInfoSemana()`: the Monday and Sunday shown, and the label. */
    method ActualizarInfoSemana(today: int) returns (lunes: int, domingo: int, tipo: string)
      ensures Weekday(lunes) == 1 && domingo == lunes + 6
      ensures lunes == GetSemana(today, semanaActual).lunes
      ensures tipo == WeekLabel(semanaActual)
    {
      var w := GetSemana(today, semanaActual);
      lunes, domingo := w.lunes, w.domingo;
      tipo := WeekLabel(semanaActual);
    }
  }
}
