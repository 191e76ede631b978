/** The three LEDs and the seven patterns. */
module LedsHandlers {
  import opened Hysteresis
  import opened Machines

  class LedsHandler {
    var power: bool
    var brew: bool
    var steam: bool

    function View(): Leds
      reads this
    {
      Leds(power, brew, steam)
    }

    constructor ()
      ensures View() == ALL_OFF && !power && !brew && !steam
    {
      power, brew, steam := false, false, false;
    }

    method IndicatePowerOff()
      modifies this
      ensures View() == ALL_OFF
      ensures !power && !brew && !steam
    {
      power := false;
      brew := false;
      steam := false;
    }

    method IndicateBrewPreheat()
      modifies this
      ensures View() == Pattern(false, Preheat)
      ensures power && !brew && !steam
    {
      power := true;
      brew := false;
      steam := false;
    }

    method IndicateBrewReady()
      modifies this
      ensures View() == Pattern(false, Ready)
      ensures power && brew && !steam
    {
      power := true;
      brew := true;
      steam := false;
    }

    method IndicateBrewOverheat()
      modifies this
      ensures View() == Pattern(false, Overheat)
      ensures power && !brew && !steam
    {
      power := true;
      brew := false;
      steam := false;
    }

    method IndicateSteamPreheat()
      modifies this
      ensures View() == Pattern(true, Preheat)
      ensures power && !brew && !steam
    {
      power := true;
      brew := false;
      steam := false;
    }

    method IndicateSteamReady()
      modifies this
      ensures View() == Pattern(true, Ready)
      ensures power && !brew && steam
    {
      power := true;
      brew := false;
      steam := true;
    }

    method IndicateSteamOverheat()
      modifies this
      ensures View() == Pattern(true, Overheat)
      ensures power && !brew && !steam
    {
      power := true;
      brew := false;
      steam := false;
    }
  }

  /** The LEDs of a mode tell ready from not ready, and nothing more; the two modes differ only when ready. */
  lemma PatternsTellReadiness(steam1: bool, status1: HeatingStatus, steam2: bool, status2: HeatingStatus)
    ensures Pattern(steam1, status1) == Pattern(steam2, status2) <==>
              (status1 == Ready <==> status2 == Ready) && (status1 == Ready ==> steam1 == steam2)
    ensures Pattern(steam1, status1).power
    ensures Pattern(steam1, status1).brew <==> !steam1 && status1 == Ready
    ensures Pattern(steam1, status1).steam <==> steam1 && status1 == Ready
  {
  }
}
