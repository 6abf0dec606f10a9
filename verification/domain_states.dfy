/** The per-domain state enumerations the entity catalogs list as supported states. */
module DomainStates {

  datatype LightState = On | Off {
    function Value(): string {
      match this
      case On => "on"
      case Off => "off"
    }
  }

  datatype ClimateState = Off | Heat | Cool | HeatCool | Dry | FanOnly | Auto {
    function Value(): string {
      match this
      case Off => "off"
      case Heat => "heat"
      case Cool => "cool"
      case HeatCool => "heat_cool"
      case Dry => "dry"
      case FanOnly => "fan_only"
      case Auto => "auto"
    }
  }

  datatype HumidifierState = On | Off {
    function Value(): string {
      match this
      case On => "on"
      case Off => "off"
    }
  }

  datatype LockState = Locked | Unlocked | Locking | Unlocking {
    function Value(): string {
      match this
      case Locked => "locked"
      case Unlocked => "unlocked"
      case Locking => "locking"
      case Unlocking => "unlocking"
    }
  }
}
