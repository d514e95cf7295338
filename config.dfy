/**
 * The configuration store the firmware reads and writes (HixConfig). Only the
 * A/C temperature is modelled; EEPROM persistence is abstracted as a count of
 * commits.
 */
module HixConfig {

  class Config {
    /** The configured A/C set-point, in degrees Celsius. */
    var acTemperature: int
    /** How many times the configuration was committed to EEPROM. */
    var commits: nat

    constructor (temperature: int)
      ensures acTemperature == temperature && commits == 0
    {
      acTemperature := temperature;
      commits := 0;
    }

    method SetACTemperature(temperature: int)
      modifies this
      ensures acTemperature == temperature && commits == old(commits)
    {
      acTemperature := temperature;
    }

    method CommitToEEPROM()
      modifies this
      ensures commits == old(commits) + 1 && acTemperature == old(acTemperature)
    {
      commits := commits + 1;
    }
  }
}
