/** The aarch64 register catalogs (src/aarch64/mod.rs, repeated in
    src/lib.rs): the closed `Register` and `SystemRegister` enumerations and
    their translations to the native identifiers `hv_reg_t` and
    `hv_sys_reg_t`. A native identifier is modelled by its name: `HV_REG(X0)`
    stands for the constant `HV_REG_X0`. Numeric values are not part of this
    model. */
module Aarch64Registers {

  /** `Register`: general-purpose registers, FP/LR, PC and the FP and
      processor state registers, in declaration order. */
  datatype Register
    = X0 | X1 | X2 | X3 | X4 | X5 | X6 | X7 | X8 | X9 | X10 | X11 | X12 | X13 | X14 | X15 | X16
    | X17 | X18 | X19 | X20 | X21 | X22 | X23 | X24 | X25 | X26 | X27 | X28 | X29 | FP | X30
    | LR | PC | FPCR | FPSR | CPSR

  /** A native `HV_REG_*` identifier, named by the register it denotes. */
  datatype HvReg = HV_REG(name: Register)

  /** `From<Register> for hv_reg_t`: one arm per variant, and every arm names
      the identifier of its own variant. */
  function ToHvReg(r: Register): (n: HvReg)
    ensures n.name == r
  {
    match r
    case X0 => HV_REG(X0)
    case X1 => HV_REG(X1)
    case X2 => HV_REG(X2)
    case X3 => HV_REG(X3)
    case X4 => HV_REG(X4)
    case X5 => HV_REG(X5)
    case X6 => HV_REG(X6)
    case X7 => HV_REG(X7)
    case X8 => HV_REG(X8)
    case X9 => HV_REG(X9)
    case X10 => HV_REG(X10)
    case X11 => HV_REG(X11)
    case X12 => HV_REG(X12)
    case X13 => HV_REG(X13)
    case X14 => HV_REG(X14)
    case X15 => HV_REG(X15)
    case X16 => HV_REG(X16)
    case X17 => HV_REG(X17)
    case X18 => HV_REG(X18)
    case X19 => HV_REG(X19)
    case X20 => HV_REG(X20)
    case X21 => HV_REG(X21)
    case X22 => HV_REG(X22)
    case X23 => HV_REG(X23)
    case X24 => HV_REG(X24)
    case X25 => HV_REG(X25)
    case X26 => HV_REG(X26)
    case X27 => HV_REG(X27)
    case X28 => HV_REG(X28)
    case X29 => HV_REG(X29)
    case X30 => HV_REG(X30)
    case FP => HV_REG(FP)
    case LR => HV_REG(LR)
    case PC => HV_REG(PC)
    case FPCR => HV_REG(FPCR)
    case FPSR => HV_REG(FPSR)
    case CPSR => HV_REG(CPSR)
  }

  /** Distinct registers are never sent to the native layer under one name;
      in particular X29 and FP, and X30 and LR, are translated to different
      constant names (whether the framework gives those names one numeric
      value is not part of this model). */
  lemma RegisterTranslationIsInjective(r1: Register, r2: Register)
    ensures ToHvReg(r1) == ToHvReg(r2) <==> r1 == r2
  {
  }

  /** `SystemRegister`: debug, ID, pointer-authentication key, exception,
      translation and timer registers, in declaration order. */
  datatype SystemRegister
    = DBGBVR0_EL1 | DBGBCR0_EL1 | DBGWVR0_EL1 | DBGWCR0_EL1 | DBGBVR1_EL1 | DBGBCR1_EL1
    | DBGWVR1_EL1 | DBGWCR1_EL1 | MDCCINT_EL1 | MDSCR_EL1 | DBGBVR2_EL1 | DBGBCR2_EL1
    | DBGWVR2_EL1 | DBGWCR2_EL1 | DBGBVR3_EL1 | DBGBCR3_EL1 | DBGWVR3_EL1 | DBGWCR3_EL1
    | DBGBVR4_EL1 | DBGBCR4_EL1 | DBGWVR4_EL1 | DBGWCR4_EL1 | DBGBVR5_EL1 | DBGBCR5_EL1
    | DBGWVR5_EL1 | DBGWCR5_EL1 | DBGBVR6_EL1 | DBGBCR6_EL1 | DBGWVR6_EL1 | DBGWCR6_EL1
    | DBGBVR7_EL1 | DBGBCR7_EL1 | DBGWVR7_EL1 | DBGWCR7_EL1 | DBGBVR8_EL1 | DBGBCR8_EL1
    | DBGWVR8_EL1 | DBGWCR8_EL1 | DBGBVR9_EL1 | DBGBCR9_EL1 | DBGWVR9_EL1 | DBGWCR9_EL1
    | DBGBVR10_EL1 | DBGBCR10_EL1 | DBGWVR10_EL1 | DBGWCR10_EL1 | DBGBVR11_EL1 | DBGBCR11_EL1
    | DBGWVR11_EL1 | DBGWCR11_EL1 | DBGBVR12_EL1 | DBGBCR12_EL1 | DBGWVR12_EL1 | DBGWCR12_EL1
    | DBGBVR13_EL1 | DBGBCR13_EL1 | DBGWVR13_EL1 | DBGWCR13_EL1 | DBGBVR14_EL1 | DBGBCR14_EL1
    | DBGWVR14_EL1 | DBGWCR14_EL1 | DBGBVR15_EL1 | DBGBCR15_EL1 | DBGWVR15_EL1 | DBGWCR15_EL1
    | MIDR_EL1 | MPIDR_EL1 | ID_AA64PFR0_EL1 | ID_AA64PFR1_EL1 | ID_AA64DFR0_EL1
    | ID_AA64DFR1_EL1 | ID_AA64ISAR0_EL1 | ID_AA64ISAR1_EL1 | ID_AA64MMFR0_EL1
    | ID_AA64MMFR1_EL1 | ID_AA64MMFR2_EL1 | SCTLR_EL1 | CPACR_EL1 | TTBR0_EL1 | TTBR1_EL1
    | TCR_EL1 | APIAKEYLO_EL1 | APIAKEYHI_EL1 | APIBKEYLO_EL1 | APIBKEYHI_EL1 | APDAKEYLO_EL1
    | APDAKEYHI_EL1 | APDBKEYLO_EL1 | APDBKEYHI_EL1 | APGAKEYLO_EL1 | APGAKEYHI_EL1 | SPSR_EL1
    | ELR_EL1 | SP_EL0 | AFSR0_EL1 | AFSR1_EL1 | ESR_EL1 | FAR_EL1 | PAR_EL1 | MAIR_EL1
    | AMAIR_EL1 | VBAR_EL1 | CONTEXTIDR_EL1 | TPIDR_EL1 | CNTKCTL_EL1 | CSSELR_EL1 | TPIDR_EL0
    | TPIDRRO_EL0 | CNTV_CTL_EL0 | CNTV_CVAL_EL0 | SP_EL1

  /** A native `HV_SYS_REG_*` identifier, named by the register it denotes. */
  datatype HvSysReg = HV_SYS_REG(name: SystemRegister)

  /** `From<SystemRegister> for hv_sys_reg_t`: one arm per variant, and every
      arm names the identifier of its own variant. */
  function ToHvSysReg(r: SystemRegister): (n: HvSysReg)
    ensures n.name == r
  {
    match r
    case DBGBVR0_EL1 => HV_SYS_REG(DBGBVR0_EL1)
    case DBGBCR0_EL1 => HV_SYS_REG(DBGBCR0_EL1)
    case DBGWVR0_EL1 => HV_SYS_REG(DBGWVR0_EL1)
    case DBGWCR0_EL1 => HV_SYS_REG(DBGWCR0_EL1)
    case DBGBVR1_EL1 => HV_SYS_REG(DBGBVR1_EL1)
    case DBGBCR1_EL1 => HV_SYS_REG(DBGBCR1_EL1)
    case DBGWVR1_EL1 => HV_SYS_REG(DBGWVR1_EL1)
    case DBGWCR1_EL1 => HV_SYS_REG(DBGWCR1_EL1)
    case MDCCINT_EL1 => HV_SYS_REG(MDCCINT_EL1)
    case MDSCR_EL1 => HV_SYS_REG(MDSCR_EL1)
    case DBGBVR2_EL1 => HV_SYS_REG(DBGBVR2_EL1)
    case DBGBCR2_EL1 => HV_SYS_REG(DBGBCR2_EL1)
    case DBGWVR2_EL1 => HV_SYS_REG(DBGWVR2_EL1)
    case DBGWCR2_EL1 => HV_SYS_REG(DBGWCR2_EL1)
    case DBGBVR3_EL1 => HV_SYS_REG(DBGBVR3_EL1)
    case DBGBCR3_EL1 => HV_SYS_REG(DBGBCR3_EL1)
    case DBGWVR3_EL1 => HV_SYS_REG(DBGWVR3_EL1)
    case DBGWCR3_EL1 => HV_SYS_REG(DBGWCR3_EL1)
    case DBGBVR4_EL1 => HV_SYS_REG(DBGBVR4_EL1)
    case DBGBCR4_EL1 => HV_SYS_REG(DBGBCR4_EL1)
    case DBGWVR4_EL1 => HV_SYS_REG(DBGWVR4_EL1)
    case DBGWCR4_EL1 => HV_SYS_REG(DBGWCR4_EL1)
    case DBGBVR5_EL1 => HV_SYS_REG(DBGBVR5_EL1)
    case DBGBCR5_EL1 => HV_SYS_REG(DBGBCR5_EL1)
    case DBGWVR5_EL1 => HV_SYS_REG(DBGWVR5_EL1)
    case DBGWCR5_EL1 => HV_SYS_REG(DBGWCR5_EL1)
    case DBGBVR6_EL1 => HV_SYS_REG(DBGBVR6_EL1)
    case DBGBCR6_EL1 => HV_SYS_REG(DBGBCR6_EL1)
    case DBGWVR6_EL1 => HV_SYS_REG(DBGWVR6_EL1)
    case DBGWCR6_EL1 => HV_SYS_REG(DBGWCR6_EL1)
    case DBGBVR7_EL1 => HV_SYS_REG(DBGBVR7_EL1)
    case DBGBCR7_EL1 => HV_SYS_REG(DBGBCR7_EL1)
    case DBGWVR7_EL1 => HV_SYS_REG(DBGWVR7_EL1)
    case DBGWCR7_EL1 => HV_SYS_REG(DBGWCR7_EL1)
    case DBGBVR8_EL1 => HV_SYS_REG(DBGBVR8_EL1)
    case DBGBCR8_EL1 => HV_SYS_REG(DBGBCR8_EL1)
    case DBGWVR8_EL1 => HV_SYS_REG(DBGWVR8_EL1)
    case DBGWCR8_EL1 => HV_SYS_REG(DBGWCR8_EL1)
    case DBGBVR9_EL1 => HV_SYS_REG(DBGBVR9_EL1)
    case DBGBCR9_EL1 => HV_SYS_REG(DBGBCR9_EL1)
    case DBGWVR9_EL1 => HV_SYS_REG(DBGWVR9_EL1)
    case DBGWCR9_EL1 => HV_SYS_REG(DBGWCR9_EL1)
    case DBGBVR10_EL1 => HV_SYS_REG(DBGBVR10_EL1)
    case DBGBCR10_EL1 => HV_SYS_REG(DBGBCR10_EL1)
    case DBGWVR10_EL1 => HV_SYS_REG(DBGWVR10_EL1)
    case DBGWCR10_EL1 => HV_SYS_REG(DBGWCR10_EL1)
    case DBGBVR11_EL1 => HV_SYS_REG(DBGBVR11_EL1)
    case DBGBCR11_EL1 => HV_SYS_REG(DBGBCR11_EL1)
    case DBGWVR11_EL1 => HV_SYS_REG(DBGWVR11_EL1)
    case DBGWCR11_EL1 => HV_SYS_REG(DBGWCR11_EL1)
    case DBGBVR12_EL1 => HV_SYS_REG(DBGBVR12_EL1)
    case DBGBCR12_EL1 => HV_SYS_REG(DBGBCR12_EL1)
    case DBGWVR12_EL1 => HV_SYS_REG(DBGWVR12_EL1)
    case DBGWCR12_EL1 => HV_SYS_REG(DBGWCR12_EL1)
    case DBGBVR13_EL1 => HV_SYS_REG(DBGBVR13_EL1)
    case DBGBCR13_EL1 => HV_SYS_REG(DBGBCR13_EL1)
    case DBGWVR13_EL1 => HV_SYS_REG(DBGWVR13_EL1)
    case DBGWCR13_EL1 => HV_SYS_REG(DBGWCR13_EL1)
    case DBGBVR14_EL1 => HV_SYS_REG(DBGBVR14_EL1)
    case DBGBCR14_EL1 => HV_SYS_REG(DBGBCR14_EL1)
    case DBGWVR14_EL1 => HV_SYS_REG(DBGWVR14_EL1)
    case DBGWCR14_EL1 => HV_SYS_REG(DBGWCR14_EL1)
    case DBGBVR15_EL1 => HV_SYS_REG(DBGBVR15_EL1)
    case DBGBCR15_EL1 => HV_SYS_REG(DBGBCR15_EL1)
    case DBGWVR15_EL1 => HV_SYS_REG(DBGWVR15_EL1)
    case DBGWCR15_EL1 => HV_SYS_REG(DBGWCR15_EL1)
    case MIDR_EL1 => HV_SYS_REG(MIDR_EL1)
    case MPIDR_EL1 => HV_SYS_REG(MPIDR_EL1)
    case ID_AA64PFR0_EL1 => HV_SYS_REG(ID_AA64PFR0_EL1)
    case ID_AA64PFR1_EL1 => HV_SYS_REG(ID_AA64PFR1_EL1)
    case ID_AA64DFR0_EL1 => HV_SYS_REG(ID_AA64DFR0_EL1)
    case ID_AA64DFR1_EL1 => HV_SYS_REG(ID_AA64DFR1_EL1)
    case ID_AA64ISAR0_EL1 => HV_SYS_REG(ID_AA64ISAR0_EL1)
    case ID_AA64ISAR1_EL1 => HV_SYS_REG(ID_AA64ISAR1_EL1)
    case ID_AA64MMFR0_EL1 => HV_SYS_REG(ID_AA64MMFR0_EL1)
    case ID_AA64MMFR1_EL1 => HV_SYS_REG(ID_AA64MMFR1_EL1)
    case ID_AA64MMFR2_EL1 => HV_SYS_REG(ID_AA64MMFR2_EL1)
    case SCTLR_EL1 => HV_SYS_REG(SCTLR_EL1)
    case CPACR_EL1 => HV_SYS_REG(CPACR_EL1)
    case TTBR0_EL1 => HV_SYS_REG(TTBR0_EL1)
    case TTBR1_EL1 => HV_SYS_REG(TTBR1_EL1)
    case TCR_EL1 => HV_SYS_REG(TCR_EL1)
    case APIAKEYLO_EL1 => HV_SYS_REG(APIAKEYLO_EL1)
    case APIAKEYHI_EL1 => HV_SYS_REG(APIAKEYHI_EL1)
    case APIBKEYLO_EL1 => HV_SYS_REG(APIBKEYLO_EL1)
    case APIBKEYHI_EL1 => HV_SYS_REG(APIBKEYHI_EL1)
    case APDAKEYLO_EL1 => HV_SYS_REG(APDAKEYLO_EL1)
    case APDAKEYHI_EL1 => HV_SYS_REG(APDAKEYHI_EL1)
    case APDBKEYLO_EL1 => HV_SYS_REG(APDBKEYLO_EL1)
    case APDBKEYHI_EL1 => HV_SYS_REG(APDBKEYHI_EL1)
    case APGAKEYLO_EL1 => HV_SYS_REG(APGAKEYLO_EL1)
    case APGAKEYHI_EL1 => HV_SYS_REG(APGAKEYHI_EL1)
    case SPSR_EL1 => HV_SYS_REG(SPSR_EL1)
    case ELR_EL1 => HV_SYS_REG(ELR_EL1)
    case SP_EL0 => HV_SYS_REG(SP_EL0)
    case AFSR0_EL1 => HV_SYS_REG(AFSR0_EL1)
    case AFSR1_EL1 => HV_SYS_REG(AFSR1_EL1)
    case ESR_EL1 => HV_SYS_REG(ESR_EL1)
    case FAR_EL1 => HV_SYS_REG(FAR_EL1)
    case PAR_EL1 => HV_SYS_REG(PAR_EL1)
    case MAIR_EL1 => HV_SYS_REG(MAIR_EL1)
    case AMAIR_EL1 => HV_SYS_REG(AMAIR_EL1)
    case VBAR_EL1 => HV_SYS_REG(VBAR_EL1)
    case CONTEXTIDR_EL1 => HV_SYS_REG(CONTEXTIDR_EL1)
    case TPIDR_EL1 => HV_SYS_REG(TPIDR_EL1)
    case CNTKCTL_EL1 => HV_SYS_REG(CNTKCTL_EL1)
    case CSSELR_EL1 => HV_SYS_REG(CSSELR_EL1)
    case TPIDR_EL0 => HV_SYS_REG(TPIDR_EL0)
    case TPIDRRO_EL0 => HV_SYS_REG(TPIDRRO_EL0)
    case CNTV_CTL_EL0 => HV_SYS_REG(CNTV_CTL_EL0)
    case CNTV_CVAL_EL0 => HV_SYS_REG(CNTV_CVAL_EL0)
    case SP_EL1 => HV_SYS_REG(SP_EL1)
  }

  /** Distinct system registers are never sent under one native name. */
  lemma SystemRegisterTranslationIsInjective(r1: SystemRegister, r2: SystemRegister)
    ensures ToHvSysReg(r1) == ToHvSysReg(r2) <==> r1 == r2
  {
  }
}
