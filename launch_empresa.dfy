/**
 * The company step of the onboarding flow (core/web/src/pages/LaunchEmpresa.tsx):
 * the translation between the company sizes the server stores and the
 * employee-count options the form shows, and the form validation.
 */
module LaunchEmpresa {
  import opened Wrappers
  import opened Text

  /** The sizes the server stores, in the order of `Options()`. */
  function Sizes(): (r: seq<string>)
    ensures |r| == 4
  {
    ["micro empresa", "pequeña empresa", "empresa mediana", "empresa grande"]
  }

  /** The employee-count options of the select field. */
  function Options(): (r: seq<string>)
    ensures |r| == 4
  {
    ["10 o menos", "Entre 11 y 50", "Entre 51 y 250", "Más de 250"]
  }

  /** `mapSizeToOption`: a stored size to its option, anything else to "". */
  function MapSizeToOption(size: string): (opt: string)
    ensures size in Sizes() ==> opt in Options()
    ensures size !in Sizes() ==> opt == ""
  {
    if size == "micro empresa" then "10 o menos"
    else if size == "pequeña empresa" then "Entre 11 y 50"
    else if size == "empresa mediana" then "Entre 51 y 250"
    else if size == "empresa grande" then "Más de 250"
    else ""
  }

  /** The chain of `if`s in `handleSubmit`: an option back to its stored size, anything else to "". */
  function OptionToSize(opt: string): (size: string)
    ensures opt in Options() ==> size in Sizes()
    ensures opt !in Options() ==> size == ""
  {
    if opt == "10 o menos" then "micro empresa"
    else if opt == "Entre 11 y 50" then "pequeña empresa"
    else if opt == "Entre 51 y 250" then "empresa mediana"
    else if opt == "Más de 250" then "empresa grande"
    else ""
  }

  /** The two tables pair the k-th size with the k-th option, in both directions. */
  lemma SizeOptionPairs(k: nat)
    requires k < 4
    ensures MapSizeToOption(Sizes()[k]) == Options()[k]
    ensures OptionToSize(Options()[k]) == Sizes()[k]
  {
    assert Sizes()[0] == "micro empresa" && Options()[0] == "10 o menos";
  }

  /** Option to size to option gives every option back; so does size to option to size. */
  lemma RoundTrips(opt: string, size: string)
    ensures opt in Options() ==> MapSizeToOption(OptionToSize(opt)) == opt
    ensures size in Sizes() ==> OptionToSize(MapSizeToOption(size)) == size
  {
    if opt in Options() {
      var k :| 0 <= k < 4 && Options()[k] == opt;
      SizeOptionPairs(k);
    }
    if size in Sizes() {
      var k :| 0 <= k < 4 && Sizes()[k] == size;
      SizeOptionPairs(k);
    }
  }

  /** What the form holds when it is validated. */
  datatype EmpresaForm = EmpresaForm(
    nombreEmpresa: string, industria: string, numEmpleados: string,
    alcance: string, operaciones: string, sucursales: string)

  /** The form as it opens: the stored company's values, its size shown as an option. */
  function InitialForm(businessName: string, industry: string, companySize: string,
                       scope: string, locations: string, numBranches: string): (f: EmpresaForm)
    ensures f.numEmpleados == "" <==> companySize !in Sizes()
  {
    EmpresaForm(businessName, industry, MapSizeToOption(companySize), scope, locations, numBranches)
  }

  /** The errors object: one optional message per field, absent when the field passed. */
  datatype Errors = Errors(
    nombreEmpresa: Option<string>, industria: Option<string>, numEmpleados: Option<string>,
    alcance: Option<string>, operaciones: Option<string>, sucursales: Option<string>)

  const NoErrors: Errors := Errors(None, None, None, None, None, None)

  /** `Object.keys(errors).length`. */
  function KeyCount(e: Errors): (n: nat)
    ensures n == 0 <==> e == NoErrors
    ensures n <= 6
  {
    (if e.nombreEmpresa.Some? then 1 else 0) + (if e.industria.Some? then 1 else 0)
    + (if e.numEmpleados.Some? then 1 else 0) + (if e.alcance.Some? then 1 else 0)
    + (if e.operaciones.Some? then 1 else 0) + (if e.sucursales.Some? then 1 else 0)
  }

  const Required: string := "Este campo es obligatorio"
  const NotANumber: string := "Debe ser un número válido"

  /**
   * `validarFormulario`: records an error under the name of every field that
   * fails, checking the fields in order, and reports whether none failed.
   */
  method ValidarFormulario(f: EmpresaForm) returns (errors: Errors, valid: bool)
    ensures errors.nombreEmpresa == if Blank(f.nombreEmpresa) then Some(Required) else None
    ensures errors.industria == if f.industria == "" then Some(Required) else None
    ensures errors.numEmpleados == if f.numEmpleados == "" then Some(Required) else None
    ensures errors.alcance == if f.alcance == "" then Some(Required) else None
    ensures errors.operaciones == if Blank(f.operaciones) then Some(Required) else None
    ensures errors.sucursales == if Blank(f.sucursales) then Some(Required)
                                 else if !IsNumeral(f.sucursales) then Some(NotANumber) else None
    ensures valid <==> errors == NoErrors
    ensures valid <==> !Blank(f.nombreEmpresa) && f.industria != "" && f.numEmpleados != ""
                       && f.alcance != "" && !Blank(f.operaciones) && IsNumeral(f.sucursales)
  {
    if IsNumeral(f.sucursales) {
      NumeralNotBlank(f.sucursales);
    }
    errors := NoErrors;
    if Trim(f.nombreEmpresa) == "" { errors := errors.(nombreEmpresa := Some(Required)); }
    if f.industria == "" { errors := errors.(industria := Some(Required)); }
    if f.numEmpleados == "" { errors := errors.(numEmpleados := Some(Required)); }
    if f.alcance == "" { errors := errors.(alcance := Some(Required)); }
    if Trim(f.operaciones) == "" { errors := errors.(operaciones := Some(Required)); }
    if Trim(f.sucursales) == "" {
      errors := errors.(sucursales := Some(Required));
    } else if !IsNumeral(f.sucursales) {
      errors := errors.(sucursales := Some(NotANumber));
    }
    valid := KeyCount(errors) == 0;
  }

  /** A numeral is never blank, so a numeric branch count passes both of its checks. */
  lemma NumeralNotBlank(s: string)
    requires IsNumeral(s)
    ensures !Blank(s)
  {
    assert IsDigit(s[0]);
  }
}
