/** The constant data the application starts from
    (project/src/data/mockData.ts): the six seed services and the 19-slot
    day template. */
module MockData {
  import opened Seqs
  import opened Types

  const SeedServices: seq<Service> := [
    Service("1", "Corte Clásico", "Corte tradicional con acabado prolijo y estilizado.", 35, 40,
      "https://images.unsplash.com/photo-1621607512200-6f5b2b96cfa0?q=80&w=1280&auto=format&fit=crop", Active),
    Service("2", "Afeitado Tradicional", "Afeitado con toallas calientes y navaja para un acabado suave.", 25, 30,
      "https://images.unsplash.com/photo-1562259949-e8e7689d7828?q=80&w=1280&auto=format&fit=crop", Active),
    Service("3", "Corte + Barba", "Paquete completo de corte de cabello y arreglo de barba.", 50, 60,
      "https://images.unsplash.com/photo-1517837016564-bfc3ffd67455?q=80&w=1280&auto=format&fit=crop", Active),
    Service("4", "Arreglo de Barba", "Perfilado y arreglo de barba con productos premium.", 20, 25,
      "https://images.unsplash.com/photo-1503951914875-452162b0f3f1?q=80&w=1280&auto=format&fit=crop", Active),
    Service("5", "Corte Fade", "Corte degradado de precisión con estilo moderno.", 40, 45,
      "https://images.unsplash.com/photo-1605497788044-5f7f1c6d7a0e?q=80&w=1280&auto=format&fit=crop", Active),
    Service("6", "Color y Estilizado", "Coloración ligera y peinado para ocasiones especiales.", 60, 70,
      "https://images.unsplash.com/photo-1503951914958-c4c4b8c3b34d?q=80&w=1280&auto=format&fit=crop", Maintenance)
  ]

  const TimeSlots: seq<TimeSlot> := [
    TimeSlot("09:00", true), TimeSlot("09:30", true), TimeSlot("10:00", true), TimeSlot("10:30", true),
    TimeSlot("11:00", true), TimeSlot("11:30", true), TimeSlot("12:00", true), TimeSlot("12:30", true),
    TimeSlot("13:00", true), TimeSlot("13:30", true), TimeSlot("14:00", true), TimeSlot("14:30", true),
    TimeSlot("15:00", true), TimeSlot("15:30", true), TimeSlot("16:00", true), TimeSlot("16:30", true),
    TimeSlot("17:00", true), TimeSlot("17:30", true), TimeSlot("18:00", true)
  ]

  function DigitValue(c: char): int { c as int - '0' as int }

  /** Minutes since midnight of an "HH:MM" label. */
  function Minutes(t: string): (m: int)
    requires IsHHMM(t)
    ensures 0 <= m <= 99 * 60 + 99
  {
    (DigitValue(t[0]) * 10 + DigitValue(t[1])) * 60 + DigitValue(t[3]) * 10 + DigitValue(t[4])
  }

  /** Examples: the first, a half-hour and the last label of the day. */
  lemma MinutesExamples()
    ensures Minutes("09:00") == 540 && Minutes("09:30") == 570 && Minutes("18:00") == 1080
  {
  }

  predicate WellFormedTemplate(s: seq<TimeSlot>)
  {
    forall i :: 0 <= i < |s| ==> IsHHMM(s[i].time)
  }

  /** Each slot starts `step` minutes after the previous one. */
  predicate EvenlySpaced(s: seq<TimeSlot>, step: int)
    requires WellFormedTemplate(s)
  {
    forall i :: 0 <= i < |s| - 1 ==> Minutes(s[i + 1].time) == Minutes(s[i].time) + step
  }

  lemma TemplateShape()
    ensures |TimeSlots| == 19
    ensures TimeSlots[0].time == "09:00" && TimeSlots[18].time == "18:00"
    ensures WellFormedTemplate(TimeSlots)
    ensures forall i :: 0 <= i < |TimeSlots| ==> TimeSlots[i].available
  {
  }

  lemma TemplateHalfHourSteps()
    ensures WellFormedTemplate(TimeSlots) && EvenlySpaced(TimeSlots, 30)
  {
    TemplateShape();
    assert Minutes(TimeSlots[0].time) == 540;
    assert Minutes(TimeSlots[1].time) == 570;
    assert Minutes(TimeSlots[2].time) == 600;
    assert Minutes(TimeSlots[3].time) == 630;
    assert Minutes(TimeSlots[4].time) == 660;
    assert Minutes(TimeSlots[5].time) == 690;
    assert Minutes(TimeSlots[6].time) == 720;
    assert Minutes(TimeSlots[7].time) == 750;
    assert Minutes(TimeSlots[8].time) == 780;
    assert Minutes(TimeSlots[9].time) == 810;
    assert Minutes(TimeSlots[10].time) == 840;
    assert Minutes(TimeSlots[11].time) == 870;
    assert Minutes(TimeSlots[12].time) == 900;
    assert Minutes(TimeSlots[13].time) == 930;
    assert Minutes(TimeSlots[14].time) == 960;
    assert Minutes(TimeSlots[15].time) == 990;
    assert Minutes(TimeSlots[16].time) == 1020;
    assert Minutes(TimeSlots[17].time) == 1050;
    assert Minutes(TimeSlots[18].time) == 1080;
  }

  /** The start of every slot, in minutes. */
  function StartMinutes(s: seq<TimeSlot>): (r: seq<int>)
    requires WellFormedTemplate(s)
    ensures |r| == |s|
    ensures forall i :: 0 <= i < |s| ==> r[i] == Minutes(s[i].time)
  {
    if s == [] then [] else [Minutes(s[0].time)] + StartMinutes(s[1..])
  }

  /** In an arithmetic progression entry j is step * (j - i) past entry i. */
  lemma {:induction false} Progression(m: seq<int>, step: int, i: nat, j: nat)
    requires forall k :: 0 <= k < |m| - 1 ==> m[k + 1] == m[k] + step
    requires i <= j < |m|
    ensures m[j] == m[i] + step * (j - i)
    decreases j - i
  {
    if i < j {
      Progression(m, step, i, j - 1);
      assert m[j] == m[j - 1] + step;
      assert step * (j - i) == step * (j - 1 - i) + step;
    }
  }

  /** In an evenly spaced template the slot at index j starts step * (j - i)
      minutes after the one at index i. */
  lemma SpacedOffset(s: seq<TimeSlot>, step: int, i: nat, j: nat)
    requires WellFormedTemplate(s) && EvenlySpaced(s, step)
    requires i <= j < |s|
    ensures Minutes(s[j].time) == Minutes(s[i].time) + step * (j - i)
  {
    var m := StartMinutes(s);
    forall k | 0 <= k < |m| - 1 ensures m[k + 1] == m[k] + step {
      assert Minutes(s[k + 1].time) == Minutes(s[k].time) + step;
    }
    Progression(m, step, i, j);
  }

  /** The template's times strictly increase, so no label occurs twice. */
  lemma TemplateStrictlyIncreasing()
    ensures WellFormedTemplate(TimeSlots)
    ensures forall i, j :: 0 <= i < j < |TimeSlots| ==>
      Minutes(TimeSlots[i].time) < Minutes(TimeSlots[j].time)
    ensures forall i, j :: 0 <= i < j < |TimeSlots| ==> TimeSlots[i].time != TimeSlots[j].time
  {
    TemplateHalfHourSteps();
    forall i, j | 0 <= i < j < |TimeSlots|
      ensures Minutes(TimeSlots[i].time) < Minutes(TimeSlots[j].time)
    {
      SpacedOffset(TimeSlots, 30, i, j);
    }
  }

  lemma SeedServicesShape()
    ensures |SeedServices| == 6
    ensures forall i :: 0 <= i < 6 ==> SeedServices[i].id == [('1' as int + i) as char]
    ensures forall i :: 0 <= i < 6 ==> SeedServices[i].price > 0 && SeedServices[i].duration > 0
    ensures forall i, j :: 0 <= i < j < 6 ==> SeedServices[i].id != SeedServices[j].id
    ensures forall i :: 0 <= i < 6 ==> (SeedServices[i].status == Active <==> i != 5)
    ensures SeedServices[5].status == Maintenance
  {
  }

  function IsActive(s: Service): bool { s.status == Active }

  /** Filtering the seed list on `active` leaves five services. */
  lemma {:induction false} SeedActiveCount()
    ensures Count(SeedServices, IsActive) == 5
  {
    var s := SeedServices;
    assert forall i :: 0 <= i < 5 ==> IsActive(s[..5][i]);
    FilterAll(s[..5], IsActive);
    assert !IsActive(s[5..][0]);
    FilterNone(s[5..], IsActive);
    FilterAppend(s[..5], s[5..], IsActive);
    assert s[..5] + s[5..] == s;
  }
}
