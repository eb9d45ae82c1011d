/**
 * The last step of the Minecraft project wizard: a chain of finalizers, one
 * per registered factory, that can block project creation with a validation
 * message; and the JDK finalizer's "Java N is recommended" warning.
 *
 * The factories registered at the extension point are an input; what a custom
 * finalizer's `validate` returns is fixed by its factory. The UI (panels,
 * combo boxes, label colours, validation requestors) is not modelled except
 * for the text the warning placeholder shows.
 */
module ProjectSetupFinalizer {
  import opened Wrappers

  // ---------------------------------------------------------------------------
  // The finalizer chain
  // ---------------------------------------------------------------------------

  /** A registered factory: the JDK finalizer's, or another whose finalizers validate to `validation`. */
  datatype Factory = JdkFactory | OtherFactory(name: string, validation: Option<string>)

  /** A finalizer step: the step it was created under and the factory that created it. */
  class Finalizer {
    const parent: object
    const factory: Factory

    constructor (parent: object, factory: Factory)
      ensures this.parent == parent && this.factory == factory
    {
      this.parent := parent;
      this.factory := factory;
    }

    /** `validate`: the JDK finalizer keeps the default, which accepts. */
    function Validate(): Option<string>
    {
      match factory
      case JdkFactory => None
      case OtherFactory(_, validation) => validation
    }
  }

  /** `mapFirstNotNull`: the first non-null value, or null when all are null. */
  function FirstNotNull(vs: seq<Option<string>>): (r: Option<string>)
    ensures r.None? <==> forall i :: 0 <= i < |vs| ==> vs[i].None?
    ensures r.Some? ==> exists i :: 0 <= i < |vs| && vs[i] == r && forall j :: 0 <= j < i ==> vs[j].None?
  {
    if vs == [] then None
    else if vs[0].Some? then vs[0]
    else
      var r := FirstNotNull(vs[1..]);
      assert forall i :: 1 <= i < |vs| ==> vs[i] == vs[1..][i - 1];
      r
  }

  function Validations(finalizers: seq<Finalizer>): (vs: seq<Option<string>>)
    ensures |vs| == |finalizers|
    ensures forall i :: 0 <= i < |vs| ==> vs[i] == finalizers[i].Validate()
  {
    seq(|finalizers|, i requires 0 <= i < |finalizers| => finalizers[i].Validate())
  }

  /** The message of the wizard's validation row: the first finalizer, in order, that rejects. */
  function ValidationMessage(finalizers: seq<Finalizer>): Option<string>
  {
    FirstNotNull(Validations(finalizers))
  }

  /**
   * The step sequence the wizard runs, built from the first finalizer and the
   * rest. There is one exactly when the wizard also shows the validation row,
   * and it runs every finalizer once, in order.
   */
  function StepSequence(finalizers: seq<Finalizer>): (step: Option<seq<Finalizer>>)
    ensures step.Some? <==> HasValidationRow(finalizers)
    ensures step.Some? ==> step.value == finalizers
  {
    if finalizers == [] then None else Some([finalizers[0]] + finalizers[1..])
  }

  /** The wizard shows a validation row exactly when there are finalizers. */
  predicate HasValidationRow(finalizers: seq<Finalizer>)
  {
    finalizers != []
  }

  class ProjectSetupFinalizerWizardStep {
    /** The factories registered at the `projectSetupFinalizer` extension point, in order. */
    const factories: seq<Factory>

    constructor (factories: seq<Factory>)
      ensures this.factories == factories
    {
      this.factories := factories;
    }

    /**
     * `finalizers`: one new finalizer per factory, in factory order; the first
     * is created under this step, each later one under its predecessor.
     */
    method Finalizers() returns (result: seq<Finalizer>)
      ensures |result| == |factories|
      ensures forall i :: 0 <= i < |result| ==> fresh(result[i]) && result[i].factory == factories[i]
      ensures |result| > 0 ==> result[0].parent == this
      ensures forall i :: 0 < i < |result| ==> result[i].parent == result[i - 1]
      ensures StepSequence(result).Some? <==> factories != []
      ensures HasValidationRow(result) <==> factories != []
    {
      result := [];
      if |factories| > 0 {
        var par: object := this;
        for i := 0 to |factories|
          invariant |result| == i
          invariant forall k :: 0 <= k < i ==> fresh(result[k]) && result[k].factory == factories[k]
          invariant i > 0 ==> result[0].parent == this
          invariant forall k :: 0 < k < i ==> result[k].parent == result[k - 1]
          invariant par == if i == 0 then this else result[i - 1]
        {
          var finalizer := new Finalizer(par, factories[i]);
          result := result + [finalizer];
          par := finalizer;
        }
      }
    }
  }

  /** Validation reports the first rejecting finalizer's message, or accepts when none rejects. */
  lemma ValidationFirstRejection(finalizers: seq<Finalizer>)
    ensures ValidationMessage(finalizers).None? <==> forall i :: 0 <= i < |finalizers| ==> finalizers[i].Validate().None?
    ensures ValidationMessage(finalizers).Some? ==>
      exists i :: 0 <= i < |finalizers| && finalizers[i].Validate() == ValidationMessage(finalizers) &&
        forall j :: 0 <= j < i ==> finalizers[j].Validate().None?
  {
    var vs := Validations(finalizers);
    if ValidationMessage(finalizers).Some? {
      var i :| 0 <= i < |vs| && vs[i] == ValidationMessage(finalizers) && forall j :: 0 <= j < i ==> vs[j].None?;
      assert finalizers[i].Validate() == vs[i];
    }
  }

  /** A chain of JDK finalizers alone never blocks project creation. */
  lemma JdkFinalizersAccept(finalizers: seq<Finalizer>)
    requires forall i :: 0 <= i < |finalizers| ==> finalizers[i].factory == JdkFactory
    ensures ValidationMessage(finalizers) == None
  {
    ValidationFirstRejection(finalizers);
  }

  // ---------------------------------------------------------------------------
  // The JDK finalizer
  // ---------------------------------------------------------------------------

  /** A `JavaSdkVersion` constant and its description. */
  datatype JavaSdkVersion = JavaSdkVersion(name: string, description: string)

  const JDK_17 := JavaSdkVersion("JDK_17", "17")
  const DefaultReason := "these settings"

  /** An SDK and the Java version the host reads off it, when it can. */
  datatype Sdk = Sdk(name: string, version: Option<JavaSdkVersion>)

  /** The warning shown when the selected JDK is not the preferred one. */
  function Recommendation(preferred: JavaSdkVersion, reason: string): string
  {
    "Java " + preferred.description + " is recommended for " + reason
  }

  /** What the warning placeholder should show for a known SDK version: nothing when it is the preferred one. */
  function ExpectedLabel(version: JavaSdkVersion, preferred: JavaSdkVersion, reason: string): Option<string>
  {
    if version == preferred then None else Some(Recommendation(preferred, reason))
  }

  /** The warning names the preferred version and the reason, and appears exactly when the versions differ. */
  lemma ExpectedLabelSpec(version: JavaSdkVersion, preferred: JavaSdkVersion, reason: string)
    ensures ExpectedLabel(version, preferred, reason).None? <==> version == preferred
    ensures ExpectedLabel(version, preferred, reason).Some? ==>
      var text := ExpectedLabel(version, preferred, reason).value;
      StartsWith(text, "Java " + preferred.description + " ") && EndsWith(text, " for " + reason)
  {
    if version != preferred {
      var text := Recommendation(preferred, reason);
      var head := "Java " + preferred.description + " ";
      assert text == head + "is recommended" + " for " + reason;
      assert text[..|head|] == head;
      assert text[|text| - |" for " + reason|..] == " for " + reason;
    }
  }

  class JdkProjectSetupFinalizer {
    const parent: object
    /** The SDK selected in the combo box, if any. */
    var sdk: Option<Sdk>
    /** Whether `setupUI` has created the warning placeholder. */
    var hasLabelPlaceholder: bool
    /** The text of the placeholder's label; `None` when it shows no component. */
    var labelText: Option<string>
    var preferredJdkReason: string
    var preferredJdk: JavaSdkVersion

    /** Once the placeholder exists and the SDK's version is known, the label matches the preference. */
    ghost predicate LabelConsistent()
      reads this
    {
      hasLabelPlaceholder && sdk.Some? && sdk.value.version.Some? ==>
        labelText == ExpectedLabel(sdk.value.version.value, preferredJdk, preferredJdkReason)
    }

    constructor (parent: object)
      ensures this.parent == parent
      ensures preferredJdk == JDK_17 && preferredJdkReason == DefaultReason
      ensures sdk == None && !hasLabelPlaceholder && labelText == None
      ensures LabelConsistent()
    {
      this.parent := parent;
      sdk := None;
      hasLabelPlaceholder := false;
      labelText := None;
      preferredJdkReason := DefaultReason;
      preferredJdk := JDK_17;
    }

    /**
     * `updatePreferredJdkLabel`: leaves the label alone when the SDK or its
     * version is unknown or there is no placeholder yet; otherwise clears it
     * for the preferred version and shows the recommendation for any other.
     */
    method UpdatePreferredJdkLabel()
      modifies this`labelText
      ensures sdk.None? || sdk.value.version.None? || !hasLabelPlaceholder ==> labelText == old(labelText)
      ensures sdk.Some? && sdk.value.version.Some? && hasLabelPlaceholder ==>
        labelText == ExpectedLabel(sdk.value.version.value, preferredJdk, preferredJdkReason)
      ensures LabelConsistent()
    {
      if sdk.None? {
        return;
      }
      var version := sdk.value.version;
      if version.None? {
        return;
      }
      if version.value == preferredJdk {
        if hasLabelPlaceholder {
          labelText := None;
        }
      } else {
        if hasLabelPlaceholder {
          labelText := Some("Java " + preferredJdk.description + " is recommended for " + preferredJdkReason);
        }
      }
    }

    /** `setPreferredJdk`: records the version and the reason, then refreshes the label. */
    method SetPreferredJdk(value: JavaSdkVersion, reason: string)
      modifies this
      ensures preferredJdk == value && preferredJdkReason == reason
      ensures sdk == old(sdk) && hasLabelPlaceholder == old(hasLabelPlaceholder)
      ensures sdk.None? || sdk.value.version.None? || !hasLabelPlaceholder ==> labelText == old(labelText)
      ensures LabelConsistent()
    {
      preferredJdk := value;
      preferredJdkReason := reason;
      UpdatePreferredJdkLabel();
    }

    /** A new selection in the SDK combo box; the property listener refreshes the label. */
    method SelectSdk(selected: Option<Sdk>)
      modifies this
      ensures sdk == selected
      ensures preferredJdk == old(preferredJdk) && preferredJdkReason == old(preferredJdkReason)
      ensures hasLabelPlaceholder == old(hasLabelPlaceholder)
      ensures sdk.None? || sdk.value.version.None? || !hasLabelPlaceholder ==> labelText == old(labelText)
      ensures LabelConsistent()
    {
      sdk := selected;
      UpdatePreferredJdkLabel();
    }

    /** The part of `setupUI` that creates the empty placeholder and refreshes the label. */
    method SetupUI()
      modifies this
      ensures hasLabelPlaceholder
      ensures sdk == old(sdk) && preferredJdk == old(preferredJdk) && preferredJdkReason == old(preferredJdkReason)
      ensures sdk.None? || sdk.value.version.None? ==> labelText == None
      ensures LabelConsistent()
    {
      hasLabelPlaceholder := true;
      labelText := None;
      UpdatePreferredJdkLabel();
    }
  }
}
