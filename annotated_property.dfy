/**
 * AnnotatedProperty: the accessor pair registered for one annotated
 * property name.  Its two private, nullable slots hold the getter and
 * the setter method (named here by the method's name, which identifies
 * a method of a PHP class); each `set*` call overwrites its slot.
 */
module AnnotatedProperties {
  import opened Wrappers

  class AnnotatedProperty {
    var getter: Option<string>
    var setter: Option<string>

    /** A fresh entry has neither a getter nor a setter. */
    constructor ()
      ensures getter == None && setter == None
    {
      getter := None;
      setter := None;
    }

    /** `getGetter()`: the stored getter, or null. */
    function GetGetter(): (m: Option<string>)
      reads this
      ensures m.Some? <==> HasGetter()
      ensures m.Some? ==> m == getter
    {
      getter
    }

    /** `setGetter($getter)`: the getter slot now holds `m`; the setter slot is untouched. */
    method SetGetter(m: string)
      modifies this
      ensures getter == Some(m) && setter == old(setter)
      ensures GetGetter() == Some(m) && HasGetter()
    {
      getter := Some(m);
    }

    /** `hasGetter()`: a getter is stored. */
    function HasGetter(): (b: bool)
      reads this
      ensures b <==> getter != None
    {
      getter != None
    }

    /** `getSetter()`: the stored setter, or null. */
    function GetSetter(): (m: Option<string>)
      reads this
      ensures m.Some? <==> HasSetter()
      ensures m.Some? ==> m == setter
    {
      setter
    }

    /** `setSetter($setter)`: the setter slot now holds `m`; the getter slot is untouched. */
    method SetSetter(m: string)
      modifies this
      ensures setter == Some(m) && getter == old(getter)
      ensures GetSetter() == Some(m) && HasSetter()
    {
      setter := Some(m);
    }

    /** `hasSetter()`: a setter is stored. */
    function HasSetter(): (b: bool)
      reads this
      ensures b <==> setter != None
    {
      setter != None
    }
  }
}
